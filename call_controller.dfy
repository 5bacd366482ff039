/**
 * CallController.swift as a class. Its fields are the controller's own
 * (`url`, `token`, `isIdle`, `settings`, and what it knows of `socket` and
 * `rtc`); the calls it makes on its socket, its RTC client and its delegate
 * are appended to a ghost log. Every method is proved to do what the
 * CallSession step function of the same entry point says, and the public
 * ones keep CallSession.Inv.
 */
module CallControl {
  import opened Wrappers
  import opened Json
  import opened WebRtc
  import opened SocketProvider
  import opened Messages
  import opened CallSession
  import CallProperties

  class CallController {
    /** Whether `setSocket()` builds NativeSocket (`#available(iOS 13.0, *)`) or StarscreamSocket. */
    const native: bool
    var url: string
    var token: Option<string>
    var isIdle: bool
    var settings: Settings
    var socket: Option<SocketView>
    var rtc: Option<RtcView>
    ghost var effects: seq<Effect>

    ghost function Model(): Controller
      reads this
    {
      Controller(native, url, token, isIdle, settings, socket, rtc)
    }

    ghost predicate Valid()
      reads this
    {
      Inv(Model())
    }

    /** `init(url:)` */
    constructor (socketUrl: string, nativeTransport: bool)
      ensures Model() == Init(socketUrl, nativeTransport)
      ensures effects == []
      ensures Valid()
    {
      native := nativeTransport;
      url := socketUrl;
      token := Option.None;
      isIdle := true;
      settings := Settings(false, false);
      socket := Option.None;
      rtc := Option.None;
      effects := [];
    }

    /** `socketState` */
    function SocketState(): (state: SocketProvider.SocketState)
      reads this
      requires Valid()
      ensures state != SocketProvider.SocketState.Disconnected
      ensures socket.None? ==> state == SocketProvider.SocketState.None
      ensures socket.Some? ==> state == socket.value.state
    {
      CallProperties.SocketStateNeverDisconnected(Model());
      if socket.Some? then socket.value.state else SocketProvider.SocketState.None
    }

    method StartCall(socketToken: Option<string>, initialSettings: Option<Settings>, rtcConnects: bool)
      returns (started: bool)
      requires Valid()
      modifies this
      ensures Valid()
      ensures var outcome := CallSession.StartCall(old(Model()), socketToken, initialSettings, rtcConnects);
        Model() == outcome.0.after && effects == old(effects) + outcome.0.effects && started == outcome.1
    {
      ghost var before := Model();
      CallProperties.StartCallKeepsInv(before, socketToken, initialSettings, rtcConnects);
      if isIdle {
        isIdle := false;
      } else {
        return false;
      }
      if socketToken.Some? {
        token := socketToken;
      }
      settings := initialSettings.GetOr(settings);
      SetSocket();
      if socket.None? {
        isIdle := true;
        return false;
      }
      SetRtc(rtcConnects);
      if !rtc.value.hasConnection {
        isIdle := true;
        return false;
      }
      effects := effects + [SocketConnect];
      started := true;
    }

    method Dispose()
      modifies this
      ensures var step := CallSession.Dispose(old(Model()));
        Model() == step.after && effects == old(effects) + step.effects
    {
      if !isIdle {
        isIdle := true;
      }
      if rtc.Some? {
        effects := effects + [RtcClose];
      }
      DisconnectSocket();
    }

    /** `disconnectSocket()`, also the body of `socket?.disconnect()` in the other methods. */
    method DisconnectSocket()
      modifies this
      ensures var step := CallSession.DisconnectSocket(old(Model()));
        Model() == step.after && effects == old(effects) + step.effects
      ensures old(Valid()) ==> Valid()
    {
      ghost var before := Model();
      if old(Valid()) {
        CallProperties.DisconnectSocketKeepsInv(before);
      }
      if socket.None? {
        return;
      }
      effects := effects + [SocketDisconnect];
      if native && socket.value.state != SocketProvider.SocketState.Disconnected {
        // NativeSocket's `disconnect()` assigns Disconnected, and its `didSet` reports it here
        SocketDidChange(SocketProvider.SocketState.Disconnected, true);
      }
    }

    /** `disconnect()` */
    method Disconnect()
      requires Valid()
      modifies this
      ensures Valid()
      ensures var step := CallSession.Dispose(old(Model()));
        Model() == step.after && effects == old(effects) + step.effects
    {
      CallProperties.DisposeKeepsInv(Model());
      Dispose();
    }

    method GetSocket() returns (present: bool)
      modifies this
      ensures var step := CallSession.GetSocket(old(Model()));
        Model() == step.after && effects == old(effects) + step.effects
      ensures present == socket.Some?
    {
      if socket.None? || socket.value.state != SocketProvider.SocketState.Connected {
        DisconnectSocket();
        SetSocket();
        if socket.Some? {
          effects := effects + [SocketConnect];
        }
      }
      present := socket.Some?;
    }

    /** `getSocket()?.send(message) { completion }` */
    method SendThroughSocket(message: Dict, completion: Completion)
      modifies this
      ensures var step := CallSession.SendThroughSocket(old(Model()), message, completion);
        Model() == step.after && effects == old(effects) + step.effects
    {
      var present := GetSocket();
      if present {
        effects := effects + [SocketSend(message, completion)];
      }
    }

    /** `endCall()` */
    method EndCall()
      requires Valid()
      modifies this
      ensures Valid()
      ensures var step := CallSession.EndCall(old(Model()));
        Model() == step.after && effects == old(effects) + step.effects
    {
      CallProperties.SendThroughSocketKeepsInv(Model(), HangupMessage(), DisposeCall);
      if isIdle {
        return;
      }
      SendThroughSocket(HangupMessage(), DisposeCall);
    }

    /** The socket calls the completion closure of a `send`. */
    method SendCompleted(completion: Completion)
      requires Valid()
      modifies this
      ensures Valid()
      ensures var step := CallSession.SendCompleted(old(Model()), completion);
        Model() == step.after && effects == old(effects) + step.effects
    {
      CallProperties.DisposeKeepsInv(Model());
      match completion
      case NoAction =>
      case DisposeCall => Dispose();
    }

    method SetRtc(rtcConnects: bool)
      modifies this
      ensures var step := CallSession.SetRtc(old(Model()), rtcConnects);
        Model() == step.after && effects == old(effects) + step.effects
    {
      rtc := Some(RtcView(rtcConnects));
      effects := effects + [RtcCreated(IceServers)];
    }

    method SetSocket()
      modifies this
      ensures var step := CallSession.SetSocket(old(Model()));
        Model() == step.after && effects == old(effects) + step.effects
    {
      if token.None? {
        return;
      }
      var socketUrl := SocketUrl(url, token.value);
      socket := Some(SocketView(socketUrl, SocketProvider.SocketState.None));
      effects := effects + [SocketCreated(socketUrl)];
    }

    /** `setAudioInput(isEnabled:)` */
    method SetAudioInput(enabled: bool)
      requires Valid()
      modifies this
      ensures Valid()
      ensures var step := CallSession.SetAudioInput(old(Model()), enabled);
        Model() == step.after && effects == old(effects) + step.effects
    {
      if rtc.Some? {
        effects := effects + [RtcAudioInput(enabled)];
      }
      settings := settings.(isMicrophoneEnabled := enabled);
    }

    /** `setAudioOutput(isEnabled:)` */
    method SetAudioOutput(enabled: bool)
      requires Valid()
      modifies this
      ensures Valid()
      ensures var step := CallSession.SetAudioOutput(old(Model()), enabled);
        Model() == step.after && effects == old(effects) + step.effects
    {
      if rtc.Some? {
        effects := effects + [RtcAudioOutput(enabled)];
      }
    }

    /** `setSpeaker(isEnabled:)` */
    method SetSpeaker(enabled: bool)
      requires Valid()
      modifies this
      ensures Valid()
      ensures var step := CallSession.SetSpeaker(old(Model()), enabled);
        Model() == step.after && effects == old(effects) + step.effects
    {
      if rtc.Some? {
        effects := effects + [RtcSpeaker(enabled)];
      }
      settings := settings.(isSpeakerEnabled := enabled);
    }

    /** `sendDTMF(digit:)` */
    method SendDtmf(digit: string)
      requires Valid()
      modifies this
      ensures Valid()
      ensures var step := CallSession.SendDtmf(old(Model()), digit);
        Model() == step.after && effects == old(effects) + step.effects
    {
      CallProperties.SendThroughSocketKeepsInv(Model(), DtmfMessage(digit), NoAction);
      SendThroughSocket(DtmfMessage(digit), NoAction);
    }

    /** `socketDidChange(state:)` */
    method SocketDidChange(state: SocketProvider.SocketState, fromCurrent: bool)
      modifies this
      ensures var step := CallSession.SocketDidChange(old(Model()), state, fromCurrent);
        Model() == step.after && effects == old(effects) + step.effects
      ensures old(Valid()) ==> Valid()
    {
      if old(Valid()) {
        CallProperties.SocketDidChangeKeepsInv(Model(), state, fromCurrent);
      }
      if socket.Some? && fromCurrent {
        socket := Some(socket.value.(state := state));
      }
      match state {
        case Connected =>
          if rtc.Some? {
            effects := effects + [RtcOffer];
          }
        case Disconnected =>
          socket := Option.None;
          isIdle := true;
        case None =>
      }
      effects := effects + [SocketStateReported(state)];
    }

    /** The completion of `rtc?.offer` started in `socketDidChange`. */
    method OfferCreated(description: SessionDescription)
      requires Valid()
      modifies this
      ensures Valid()
      ensures var step := CallSession.OfferCreated(old(Model()), description);
        Model() == step.after && effects == old(effects) + step.effects
    {
      CallProperties.SendThroughSocketKeepsInv(Model(), CallMessage(description), NoAction);
      SendThroughSocket(CallMessage(description), NoAction);
    }

    /** `socketDidRecieve(data:)` */
    method SocketDidReceive(data: Dict)
      requires Valid()
      modifies this
      ensures Valid()
      ensures var step := CallSession.SocketDidReceive(old(Model()), data);
        Model() == step.after && effects == old(effects) + step.effects
    {
      CallProperties.SocketDidReceiveKeepsInv(Model(), data);
      var event := StringField(data, "event");
      if event == Some("answer") {
        var sdp := AnswerSdp(data);
        if sdp.Some? && rtc.Some? {
          effects := effects + [RtcSetRemote(SessionDescription(SdpType.Answer, sdp.value))];
        }
      } else if event == Some("candidate") {
        var candidateData := ObjectField(data, "candidate");
        if candidateData.Some? {
          var lineIndex := IntField(candidateData.value, "sdpMLineIndex").GetOr(0);
          if InInt32Range(lineIndex) && rtc.Some? {
            var candidate := IceCandidate(StringField(candidateData.value, "candidate").GetOr(""),
                                          lineIndex as int32,
                                          StringField(candidateData.value, "sdpMid"));
            effects := effects + [RtcSetRemoteCandidate(candidate)];
          }
        }
      } else if event == Some("hangup") {
        Dispose();
      }
    }

    /** `rtcClient(didDiscover:)` */
    method DidDiscover(candidate: IceCandidate)
      requires Valid()
      modifies this
      ensures Valid()
      ensures var step := CallSession.DidDiscoverCandidate(old(Model()), candidate);
        Model() == step.after && effects == old(effects) + step.effects
    {
      if socket.Some? {
        effects := effects + [SocketSend(CandidateMessage(candidate), NoAction)];
      }
    }

    /** `rtcClient(didChange:)` */
    method PeerConnectionDidChange(state: PeerConnectionState)
      requires Valid()
      modifies this
      ensures Valid()
      ensures var step := CallSession.PeerConnectionDidChange(old(Model()), state);
        Model() == step.after && effects == old(effects) + step.effects
    {
      if state == PeerConnectionState.Connected {
        SetAudioInput(settings.isMicrophoneEnabled);
        SetSpeaker(settings.isSpeakerEnabled);
      }
      effects := effects + [PeerStateReported(state)];
    }
  }
}
