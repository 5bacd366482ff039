/**
 * What CallController.swift promises about a call, proved of the state
 * machine in CallSession.
 */
module CallProperties {
  import opened Wrappers
  import opened Json
  import opened WebRtc
  import opened SocketProvider
  import opened Messages
  import opened CallSession

  // ---------------------------------------------------------------- invariant

  lemma DisconnectSocketKeepsInv(c: Controller)
    requires c.socket.Some? ==> c.token.Some? && c.socket.value.url == SocketUrl(c.url, c.token.value) && c.socket.value.state != SocketState.Disconnected
    ensures var d := DisconnectSocket(c);
      && (d.after.socket.Some? ==> d.after.token.Some? && d.after.socket.value.url == SocketUrl(d.after.url, d.after.token.value) && d.after.socket.value.state != SocketState.Disconnected)
      && d.after.url == c.url && d.after.token == c.token && d.after.settings == c.settings && d.after.rtc == c.rtc
      && (c.isIdle ==> d.after.isIdle)
  {}

  lemma StartCallKeepsInv(c: Controller, socketToken: Option<string>, initialSettings: Option<Settings>, rtcConnects: bool)
    requires Inv(c)
    ensures Inv(StartCall(c, socketToken, initialSettings, rtcConnects).0.after)
  {}

  lemma DisposeKeepsInv(c: Controller)
    requires Inv(c)
    ensures Inv(Dispose(c).after)
  {
    DisconnectSocketKeepsInv(c.(isIdle := true));
  }

  lemma SendThroughSocketKeepsInv(c: Controller, message: Dict, completion: Completion)
    requires Inv(c)
    ensures Inv(SendThroughSocket(c, message, completion).after)
  {
    DisconnectSocketKeepsInv(c);
  }

  lemma SocketDidChangeKeepsInv(c: Controller, state: SocketState, fromCurrent: bool)
    requires Inv(c)
    ensures Inv(SocketDidChange(c, state, fromCurrent).after)
  {}

  lemma SocketDidReceiveKeepsInv(c: Controller, data: Dict)
    requires Inv(c)
    ensures Inv(SocketDidReceive(c, data).after)
  {
    DisposeKeepsInv(c);
  }

  /** Every entry point keeps the invariant. */
  lemma InvariantHolds(c: Controller, event: Event)
    requires Inv(c)
    ensures Inv(Apply(c, event).after)
  {
    match event
    case StartCallCalled(t, s, ok) => StartCallKeepsInv(c, t, s, ok);
    case EndCallCalled => SendThroughSocketKeepsInv(c, HangupMessage(), DisposeCall);
    case DisconnectCalled => DisposeKeepsInv(c);
    case DisconnectSocketCalled => DisconnectSocketKeepsInv(c);
    case SetAudioInputCalled(on) =>
    case SetAudioOutputCalled(on) =>
    case SetSpeakerCalled(on) =>
    case SendDtmfCalled(digit) => SendThroughSocketKeepsInv(c, DtmfMessage(digit), NoAction);
    case SocketChanged(state, fromCurrent) => SocketDidChangeKeepsInv(c, state, fromCurrent);
    case SocketReceived(data) => SocketDidReceiveKeepsInv(c, data);
    case SendFinished(completion) => DisposeKeepsInv(c);
    case OfferFinished(description) => SendThroughSocketKeepsInv(c, CallMessage(description), NoAction);
    case CandidateDiscovered(candidate) =>
    case PeerChanged(state) =>
  }

  lemma {:induction false} RunKeepsInvariant(c: Controller, events: seq<Event>)
    requires Inv(c)
    ensures Inv(Run(c, events).after)
    decreases |events|
  {
    if events != [] {
      InvariantHolds(c, events[0]);
      RunKeepsInvariant(Apply(c, events[0]).after, events[1..]);
    }
  }

  /** The invariant holds after any sequence of entry points from `init(url:)`. */
  lemma ReachableControllersAreValid(url: string, native: bool, events: seq<Event>)
    ensures Inv(Run(Init(url, native), events).after)
  {
    RunKeepsInvariant(Init(url, native), events);
  }

  /** The public `socketState` never reads Disconnected: a socket that reports it is dropped. */
  lemma SocketStateNeverDisconnected(c: Controller)
    requires Inv(c)
    ensures SocketStateOf(c) != SocketState.Disconnected
    ensures c.socket.None? ==> SocketStateOf(c) == SocketState.None
  {}

  // ---------------------------------------------------------------- startCall

  lemma StartCallWhenBusy(c: Controller, socketToken: Option<string>, initialSettings: Option<Settings>, rtcConnects: bool)
    requires !c.isIdle
    ensures StartCall(c, socketToken, initialSettings, rtcConnects) == (Step(c, []), false)
  {}

  /**
   * From an idle controller, the call starts exactly when a token is known
   * (given now or kept from before) and the engine produces a peer
   * connection; only then is the socket connected. Token and settings are
   * adopted whatever the outcome, and a failed start leaves the controller
   * idle.
   */
  lemma StartCallOutcome(c: Controller, socketToken: Option<string>, initialSettings: Option<Settings>, rtcConnects: bool)
    requires Inv(c) && c.isIdle
    ensures var (step, started) := StartCall(c, socketToken, initialSettings, rtcConnects);
      var token := if socketToken.Some? then socketToken else c.token;
      && (started <==> token.Some? && rtcConnects)
      && (started <==> !step.after.isIdle)
      && step.after.token == token
      && step.after.settings == initialSettings.GetOr(c.settings)
      && (token.None? ==> step.effects == [] && step.after.socket == c.socket && step.after.rtc == c.rtc)
      && (token.Some? ==>
            && step.effects == [SocketCreated(SocketUrl(c.url, token.value)), RtcCreated(IceServers)]
                               + (if rtcConnects then [SocketConnect] else [])
            && step.after.socket == Some(SocketView(SocketUrl(c.url, token.value), SocketState.None))
            && step.after.rtc == Some(RtcView(rtcConnects)))
  {}

  /** A fresh controller given no token does not start and touches nothing. */
  lemma StartCallWithoutToken(url: string, native: bool, initialSettings: Option<Settings>, rtcConnects: bool)
    ensures var (step, started) := StartCall(Init(url, native), Option.None, initialSettings, rtcConnects);
      !started && step.effects == [] && step.after.isIdle && step.after.socket.None?
  {}

  // ----------------------------------------------------------------- dispose

  /**
   * `dispose()` leaves the controller idle, closes the RTC client and
   * disconnects the socket. A NativeSocket reports Disconnected on the spot,
   * so its controller also hears `socketDidChange(.Disconnected)`, passes it
   * on to its delegate and drops the socket; a StarscreamSocket stays until
   * the library reports.
   */
  lemma DisposeEffects(c: Controller)
    requires Inv(c)
    ensures var d := Dispose(c);
      && d.after.isIdle
      && d.effects == (if c.rtc.Some? then [RtcClose] else [])
                    + (if c.socket.Some? then [SocketDisconnect] else [])
                    + (if c.socket.Some? && c.native then [SocketStateReported(SocketState.Disconnected)] else [])
      && d.after.socket == (if c.native then Option.None else c.socket)
      && d.after.rtc == c.rtc && d.after.token == c.token && d.after.settings == c.settings
      && Inv(d.after)
  {}

  /** Disposing twice leaves the controller where disposing once did. */
  lemma DisposeIdempotent(c: Controller)
    requires Inv(c)
    ensures Dispose(Dispose(c).after).after == Dispose(c).after
  {
    DisposeEffects(c);
  }

  // ----------------------------------------------------------------- endCall

  lemma EndCallWhenIdle(c: Controller)
    requires c.isIdle
    ensures EndCall(c) == Step(c, [])
  {}

  /** On a connected socket the hangup goes out as it is, and nothing else happens yet. */
  lemma EndCallOnConnectedSocket(c: Controller)
    requires Inv(c) && !c.isIdle && c.socket.value.state == SocketState.Connected
    ensures EndCall(c) == Step(c, [SocketSend(HangupMessage(), DisposeCall)])
  {}

  /**
   * On a socket that is not yet connected, `getSocket()` disconnects it,
   * builds a new one from the same URL and token and connects it before the
   * hangup is sent. The NativeSocket's synchronous Disconnected report marks
   * the call idle on the way.
   */
  lemma EndCallReconnects(c: Controller)
    requires Inv(c) && !c.isIdle && c.socket.value.state != SocketState.Connected
    ensures var url := SocketUrl(c.url, c.token.value);
      var e := EndCall(c);
      && e.effects == [SocketDisconnect]
                    + (if c.native then [SocketStateReported(SocketState.Disconnected)] else [])
                    + [SocketCreated(url), SocketConnect, SocketSend(HangupMessage(), DisposeCall)]
      && e.after.socket == Some(SocketView(url, SocketState.None))
      && e.after.isIdle == c.native
  {}

  /** The hangup's completion disposes the call; the other completions do nothing. */
  lemma HangupCompletionEndsCall(c: Controller)
    requires Inv(c)
    ensures SendCompleted(c, DisposeCall).after.isIdle
    ensures SendCompleted(c, DisposeCall) == Dispose(c)
    ensures SendCompleted(c, NoAction) == Step(c, [])
  {
    DisposeEffects(c);
  }

  // ---------------------------------------------------------- socketDidChange

  /**
   * Every report from the socket is passed on to the delegate exactly once,
   * as the last thing done. Connected asks the RTC client for an offer,
   * Disconnected drops the socket and makes the call idle, and None does
   * nothing else; apart from that only the reporting socket's state changes.
   */
  lemma SocketChangeReportedOnce(c: Controller, state: SocketState, fromCurrent: bool)
    ensures var s := SocketDidChange(c, state, fromCurrent);
      && |s.effects| >= 1
      && s.effects[|s.effects| - 1] == SocketStateReported(state)
      && (forall i :: 0 <= i < |s.effects| - 1 ==> !s.effects[i].SocketStateReported?)
      && (state == SocketState.Disconnected ==> s.after.socket.None? && s.after.isIdle)
      && (state == SocketState.Connected ==> s.effects == (if c.rtc.Some? then [RtcOffer] else []) + [SocketStateReported(state)])
      && (state != SocketState.Disconnected ==>
            && s.after.isIdle == c.isIdle
            && SocketStateOf(s.after) == (if c.socket.Some? && fromCurrent then state else SocketStateOf(c)))
      && (state == SocketState.Disconnected ==>
            && s.effects == [SocketStateReported(state)]
            && s.after == c.(socket := Option.None, isIdle := true))
      && (state != SocketState.Disconnected ==>
            s.after == (if c.socket.Some? && fromCurrent then c.(socket := Some(c.socket.value.(state := state))) else c))
      && (state == SocketState.None ==> s.effects == [SocketStateReported(state)])
  {}

  /**
   * There is no once-only bookkeeping: when the socket drops after asking
   * for an offer, the offer's completion rebuilds and connects a new socket
   * through `getSocket()`, and that socket's Connected asks for a new offer.
   */
  lemma ReconnectOffersAgain(c: Controller, description: SessionDescription)
    requires Inv(c) && c.socket.Some? && c.rtc.Some?
    ensures var connected := SocketDidChange(c, SocketState.Connected, true);
      var dropped := SocketDidChange(connected.after, SocketState.Disconnected, true);
      var rebuilt := OfferCreated(dropped.after, description);
      var again := SocketDidChange(rebuilt.after, SocketState.Connected, true);
      var url := SocketUrl(c.url, c.token.value);
      && connected.effects == [RtcOffer, SocketStateReported(SocketState.Connected)]
      && dropped.after.socket.None?
      && rebuilt.effects == [SocketCreated(url), SocketConnect, SocketSend(CallMessage(description), NoAction)]
      && again.effects == connected.effects
  {}

  /**
   * `socketDidChange` does not ask which socket reports. So if a
   * StarscreamSocket that `getSocket()` replaced still reports Disconnected
   * (whether it can depends on its lifetime, which is not modelled), the
   * report drops the socket that replaced it: after a reconnecting
   * `endCall()`, the controller is left without a socket and idle.
   */
  lemma StaleDisconnectDropsNewSocket(c: Controller)
    requires Inv(c) && !c.native && !c.isIdle && c.socket.value.state != SocketState.Connected
    ensures var ended := EndCall(c);
      && ended.after.socket.Some?
      && SocketDidChange(ended.after, SocketState.Disconnected, false).after.socket.None?
      && SocketDidChange(ended.after, SocketState.Disconnected, false).after.isIdle
  {
    EndCallReconnects(c);
  }

  // ---------------------------------------------------------- socketDidRecieve

  /** An answer with an sdp is handed to the RTC client as the remote answer. */
  lemma InboundAnswerSetsRemote(c: Controller, data: Dict, sdp: string)
    requires StringField(data, "event") == Some("answer")
    requires AnswerSdp(data) == Some(sdp)
    ensures SocketDidReceive(c, data)
      == Step(c, if c.rtc.Some? then [RtcSetRemote(SessionDescription(SdpType.Answer, sdp))] else [])
  {}

  /** An answer without an sdp, and any event the controller does not know, changes nothing. */
  lemma InboundIgnored(c: Controller, data: Dict)
    requires || StringField(data, "event").None?
             || (StringField(data, "event") == Some("answer") && AnswerSdp(data).None?)
             || (StringField(data, "event").Some? && StringField(data, "event").value !in {"answer", "candidate", "hangup"})
    ensures SocketDidReceive(c, data) == Step(c, [])
  {}

  /** A remote hangup disposes the call. */
  lemma InboundHangupDisposes(c: Controller, data: Dict)
    requires Inv(c)
    requires StringField(data, "event") == Some("hangup")
    ensures SocketDidReceive(c, data) == Dispose(c)
    ensures SocketDidReceive(c, data).after.isIdle
  {
    DisposeEffects(c);
  }

  /** A candidate without its fields reaches the RTC client with the decoder's defaults. */
  lemma InboundCandidateDefaults(c: Controller, data: Dict)
    requires c.rtc.Some?
    requires "event" in data && data["event"] == Str("candidate")
    requires "candidate" in data && data["candidate"] == Object(map[])
    ensures SocketDidReceive(c, data) == Step(c, [RtcSetRemoteCandidate(IceCandidate("", 0, Option.None))])
  {
    DecodeCandidateFields(data, map[]);
  }

  // ------------------------------------------------------ rtcClient callbacks

  /**
   * A local candidate is sent on whatever socket there is, without a
   * reconnect, and the far end decodes it back to the same candidate with
   * the mid defaulted to "0".
   */
  lemma LocalCandidateSentAsIs(c: Controller, candidate: IceCandidate)
    ensures var s := DidDiscoverCandidate(c, candidate);
      && s.after == c
      && |s.effects| == (if c.socket.Some? then 1 else 0)
      && (forall i :: 0 <= i < |s.effects| ==>
            s.effects[i].SocketSend? && s.effects[i].completion == NoAction
            && Decode(s.effects[i].message)
               == RemoteCandidate(candidate.(sdpMid := Some(candidate.sdpMid.GetOr("0")))))
  {
    CandidateRoundTrip(candidate);
  }

  /** A peer connection that becomes Connected gets the stored microphone and speaker settings again. */
  lemma PeerConnectedReappliesSettings(c: Controller, state: PeerConnectionState)
    ensures var s := PeerConnectionDidChange(c, state);
      && s.after == c
      && s.effects == (if state == PeerConnectionState.Connected && c.rtc.Some?
                       then [RtcAudioInput(c.settings.isMicrophoneEnabled), RtcSpeaker(c.settings.isSpeakerEnabled)]
                       else [])
                      + [PeerStateReported(state)]
  {}

  /** Settings chosen before the peer connects are the ones applied when it does. */
  lemma SettingsSurviveUntilConnected(c: Controller, microphone: bool, speaker: bool, output: bool)
    requires c.rtc.Some?
    ensures var chosen := SetAudioOutput(SetSpeaker(SetAudioInput(c, microphone).after, speaker).after, output).after;
      PeerConnectionDidChange(chosen, PeerConnectionState.Connected).effects
        == [RtcAudioInput(microphone), RtcSpeaker(speaker), PeerStateReported(PeerConnectionState.Connected)]
  {}

  /** The output route is not part of the settings. */
  lemma AudioOutputNotStored(c: Controller, enabled: bool)
    ensures SetAudioOutput(c, enabled).after == c
    ensures SetAudioInput(c, enabled).after.settings == Settings(c.settings.isSpeakerEnabled, enabled)
    ensures SetSpeaker(c, enabled).after.settings == Settings(enabled, c.settings.isMicrophoneEnabled)
  {}

  // ----------------------------------------------------------------- sendDTMF

  /**
   * `sendDTMF` does not look at `isIdle`: when there is no socket but a
   * token is known (after a call ended on a NativeSocket, or after a
   * StarscreamSocket reported Disconnected), a DTMF builds and connects a new
   * socket to send the tone, even when the call is idle.
   */
  lemma DtmfWithoutSocketReconnects(c: Controller, digit: string)
    requires Inv(c) && c.socket.None? && c.token.Some?
    ensures var url := SocketUrl(c.url, c.token.value);
      SendDtmf(c, digit).effects == [SocketCreated(url), SocketConnect, SocketSend(DtmfMessage(digit), NoAction)]
    ensures SendDtmf(c, digit).after.socket == Some(SocketView(SocketUrl(c.url, c.token.value), SocketState.None))
  {}

  /** Without a token there is nothing to send a tone on. */
  lemma DtmfWithoutTokenDropped(c: Controller, digit: string)
    requires Inv(c) && c.token.None?
    ensures SendDtmf(c, digit) == Step(c, [])
  {}
}
