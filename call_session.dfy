/**
 * The life cycle of a call as CallController.swift runs it, as a state
 * machine. A `Controller` holds the controller's fields; every entry point
 * (public method, socket or RTC delegate callback, completion closure) is a
 * function from the fields before to the fields after, together with the
 * calls the controller makes on its socket, its RTC client and its own
 * delegate, in order.
 *
 * The socket and the RTC client are abstract. The controller sees of its
 * socket the URL it was built from and the state it last reported through
 * `socketDidChange` (both adapters report every change of `state` and nothing
 * else); of its RTC client, whether the engine produced a peer connection.
 * `native` is the platform's choice of adapter (`#available(iOS 13.0, *)`):
 * NativeSocket's `disconnect()` assigns Disconnected at once, so its `didSet`
 * calls `socketDidChange(.Disconnected)` before `disconnect()` returns;
 * StarscreamSocket's `disconnect()` leaves that to a later library callback.
 */
module CallSession {
  import opened Wrappers
  import opened Json
  import opened WebRtc
  import opened SocketProvider
  import opened Messages

  /** CallSettings */
  datatype Settings = Settings(isSpeakerEnabled: bool, isMicrophoneEnabled: bool)

  /** The one STUN server every RTCClient is built with. */
  const IceServers: seq<string> := ["stun:stun.l.google.com:19302"]

  datatype SocketView = SocketView(url: string, state: SocketState)

  datatype RtcView = RtcView(hasConnection: bool)

  /** The completion closures the controller hands to `send`. */
  datatype Completion = NoAction | DisposeCall

  /** The calls the controller makes on its collaborators. */
  datatype Effect =
    | SocketCreated(url: string)
    | SocketConnect
    | SocketDisconnect
    | SocketSend(message: Dict, completion: Completion)
    | RtcCreated(iceServers: seq<string>)
    | RtcOffer
    | RtcClose
    | RtcSetRemote(description: SessionDescription)
    | RtcSetRemoteCandidate(candidate: IceCandidate)
    | RtcAudioInput(enabled: bool)
    | RtcAudioOutput(enabled: bool)
    | RtcSpeaker(enabled: bool)
    /** `delegate?.callController(socketDidChange:)` */
    | SocketStateReported(socketState: SocketState)
    /** `delegate?.callController(peerConnectionDidChange:)` */
    | PeerStateReported(peerState: PeerConnectionState)

  datatype Controller = Controller(
    native: bool,
    url: string,
    token: Option<string>,
    isIdle: bool,
    settings: Settings,
    socket: Option<SocketView>,
    rtc: Option<RtcView>)

  datatype Step = Step(after: Controller, effects: seq<Effect>)

  /** `init(url:)` */
  function Init(url: string, native: bool): Controller {
    Controller(native, url, Option.None, true, Settings(false, false), Option.None, Option.None)
  }

  /**
   * What holds of every controller the entry points can reach: a socket is
   * only ever built from the current URL and token and is dropped as soon as
   * it reports Disconnected, and a call that is not idle has a socket and an
   * RTC client with a peer connection.
   */
  ghost predicate Inv(c: Controller) {
    && (c.socket.Some? ==>
          && c.token.Some?
          && c.socket.value.url == SocketUrl(c.url, c.token.value)
          && c.socket.value.state != SocketState.Disconnected)
    && (!c.isIdle ==> c.socket.Some? && c.rtc.Some? && c.rtc.value.hasConnection)
  }

  /** The public `socketState`: `socket?.state ?? .None`. */
  function SocketStateOf(c: Controller): SocketState {
    if c.socket.Some? then c.socket.value.state else SocketState.None
  }

  /** `setSocket()`: without a token nothing changes; otherwise a new socket replaces the old one. */
  function SetSocket(c: Controller): Step {
    if c.token.None? then Step(c, [])
    else
      var url := SocketUrl(c.url, c.token.value);
      Step(c.(socket := Some(SocketView(url, SocketState.None))), [SocketCreated(url)])
  }

  /** `setRTC()`: a new RTC client, with a peer connection when the engine produced one. */
  function SetRtc(c: Controller, rtcConnects: bool): Step {
    Step(c.(rtc := Some(RtcView(rtcConnects))), [RtcCreated(IceServers)])
  }

  /**
   * `socketDidChange(state:)`: a socket reports its new state. The
   * controller does not ask which socket reports; `fromCurrent` is false
   * when it is one that `getSocket()` has already replaced (a
   * StarscreamSocket whose library reports after `disconnect()`), whose
   * state is then not the controller's socket's.
   */
  function SocketDidChange(c: Controller, state: SocketState, fromCurrent: bool): Step {
    var reported := if c.socket.Some? && fromCurrent then c.(socket := Some(c.socket.value.(state := state))) else c;
    match state
    case Connected => Step(reported, (if c.rtc.Some? then [RtcOffer] else []) + [SocketStateReported(state)])
    case Disconnected => Step(reported.(socket := Option.None, isIdle := true), [SocketStateReported(state)])
    case None => Step(reported, [SocketStateReported(state)])
  }

  /** `socket?.disconnect()`, with NativeSocket's synchronous report of Disconnected. */
  function DisconnectSocket(c: Controller): Step {
    if c.socket.None? then Step(c, [])
    else if c.native && c.socket.value.state != SocketState.Disconnected then
      var changed := SocketDidChange(c, SocketState.Disconnected, true);
      Step(changed.after, [SocketDisconnect] + changed.effects)
    else Step(c, [SocketDisconnect])
  }

  /** `dispose()` */
  function Dispose(c: Controller): Step {
    var disconnected := DisconnectSocket(c.(isIdle := true));
    Step(disconnected.after, (if c.rtc.Some? then [RtcClose] else []) + disconnected.effects)
  }

  /** `getSocket()`: a socket that is not Connected is disconnected, rebuilt and connected. */
  function GetSocket(c: Controller): Step {
    if SocketStateOf(c) == SocketState.Connected then Step(c, [])
    else
      var disconnected := DisconnectSocket(c);
      var rebuilt := SetSocket(disconnected.after);
      Step(rebuilt.after,
           disconnected.effects + rebuilt.effects + (if rebuilt.after.socket.Some? then [SocketConnect] else []))
  }

  /** `getSocket()?.send(message) { completion }` */
  function SendThroughSocket(c: Controller, message: Dict, completion: Completion): Step {
    var got := GetSocket(c);
    Step(got.after, got.effects + (if got.after.socket.Some? then [SocketSend(message, completion)] else []))
  }

  /**
   * `startCall(token:with:)`: `rtcConnects` is whether the engine produces a
   * peer connection for the new RTC client. The result pairs the step with
   * the Bool that `startCall` returns.
   */
  function StartCall(c: Controller, socketToken: Option<string>, initialSettings: Option<Settings>, rtcConnects: bool): (Step, bool) {
    if !c.isIdle then (Step(c, []), false)
    else
      var adopted := c.(isIdle := false,
                        token := if socketToken.Some? then socketToken else c.token,
                        settings := initialSettings.GetOr(c.settings));
      var withSocket := SetSocket(adopted);
      if withSocket.after.socket.None? then
        (Step(withSocket.after.(isIdle := true), withSocket.effects), false)
      else
        var withRtc := SetRtc(withSocket.after, rtcConnects);
        if !rtcConnects then
          (Step(withRtc.after.(isIdle := true), withSocket.effects + withRtc.effects), false)
        else
          (Step(withRtc.after, withSocket.effects + withRtc.effects + [SocketConnect]), true)
  }

  /** `endCall()`: send a hangup whose completion disposes the call. */
  function EndCall(c: Controller): Step {
    if c.isIdle then Step(c, []) else SendThroughSocket(c, HangupMessage(), DisposeCall)
  }

  /** The socket calls the completion of a send. */
  function SendCompleted(c: Controller, completion: Completion): Step {
    match completion
    case NoAction => Step(c, [])
    case DisposeCall => Dispose(c)
  }

  /** `setAudioInput(isEnabled:)` */
  function SetAudioInput(c: Controller, enabled: bool): Step {
    Step(c.(settings := c.settings.(isMicrophoneEnabled := enabled)),
         if c.rtc.Some? then [RtcAudioInput(enabled)] else [])
  }

  /** `setAudioOutput(isEnabled:)` */
  function SetAudioOutput(c: Controller, enabled: bool): Step {
    Step(c, if c.rtc.Some? then [RtcAudioOutput(enabled)] else [])
  }

  /** `setSpeaker(isEnabled:)` */
  function SetSpeaker(c: Controller, enabled: bool): Step {
    Step(c.(settings := c.settings.(isSpeakerEnabled := enabled)),
         if c.rtc.Some? then [RtcSpeaker(enabled)] else [])
  }

  /** `sendDTMF(digit:)` */
  function SendDtmf(c: Controller, digit: string): Step {
    SendThroughSocket(c, DtmfMessage(digit), NoAction)
  }

  /** The completion of `rtc?.offer` in `socketDidChange`: send the offer as a call. */
  function OfferCreated(c: Controller, description: SessionDescription): Step {
    SendThroughSocket(c, CallMessage(description), NoAction)
  }

  /** `socketDidRecieve(data:)` */
  function SocketDidReceive(c: Controller, data: Dict): Step {
    match Decode(data)
    case RemoteAnswer(sdp) =>
      Step(c, if c.rtc.Some? then [RtcSetRemote(SessionDescription(SdpType.Answer, sdp))] else [])
    case RemoteCandidate(candidate) =>
      Step(c, if c.rtc.Some? then [RtcSetRemoteCandidate(candidate)] else [])
    case RemoteHangup => Dispose(c)
    case Ignored => Step(c, [])
  }

  /** `rtcClient(didDiscover:)`: the candidate goes out on the socket as it is, without `getSocket()`. */
  function DidDiscoverCandidate(c: Controller, candidate: IceCandidate): Step {
    Step(c, if c.socket.Some? then [SocketSend(CandidateMessage(candidate), NoAction)] else [])
  }

  /** `rtcClient(didChange:)`: on Connected the stored settings are applied again. */
  function PeerConnectionDidChange(c: Controller, state: PeerConnectionState): Step {
    if state == PeerConnectionState.Connected then
      var microphone := SetAudioInput(c, c.settings.isMicrophoneEnabled);
      var speaker := SetSpeaker(microphone.after, microphone.after.settings.isSpeakerEnabled);
      Step(speaker.after, microphone.effects + speaker.effects + [PeerStateReported(state)])
    else
      Step(c, [PeerStateReported(state)])
  }

  /** Everything that can happen to a controller, one entry point each. */
  datatype Event =
    | StartCallCalled(socketToken: Option<string>, initialSettings: Option<Settings>, rtcConnects: bool)
    | EndCallCalled
    | DisconnectCalled
    | DisconnectSocketCalled
    | SetAudioInputCalled(microphone: bool)
    | SetAudioOutputCalled(output: bool)
    | SetSpeakerCalled(speaker: bool)
    | SendDtmfCalled(digit: string)
    | SocketChanged(socketState: SocketState, fromCurrent: bool)
    | SocketReceived(data: Dict)
    | SendFinished(completion: Completion)
    | OfferFinished(description: SessionDescription)
    | CandidateDiscovered(candidate: IceCandidate)
    | PeerChanged(peerState: PeerConnectionState)

  function Apply(c: Controller, event: Event): Step {
    match event
    case StartCallCalled(t, s, ok) => StartCall(c, t, s, ok).0
    case EndCallCalled => EndCall(c)
    case DisconnectCalled => Dispose(c)
    case DisconnectSocketCalled => DisconnectSocket(c)
    case SetAudioInputCalled(on) => SetAudioInput(c, on)
    case SetAudioOutputCalled(on) => SetAudioOutput(c, on)
    case SetSpeakerCalled(on) => SetSpeaker(c, on)
    case SendDtmfCalled(digit) => SendDtmf(c, digit)
    case SocketChanged(state, fromCurrent) => SocketDidChange(c, state, fromCurrent)
    case SocketReceived(data) => SocketDidReceive(c, data)
    case SendFinished(completion) => SendCompleted(c, completion)
    case OfferFinished(description) => OfferCreated(c, description)
    case CandidateDiscovered(candidate) => DidDiscoverCandidate(c, candidate)
    case PeerChanged(state) => PeerConnectionDidChange(c, state)
  }

  /** The events, one after another, and everything they make the controller do. */
  function Run(c: Controller, events: seq<Event>): Step
    decreases |events|
  {
    if events == [] then Step(c, [])
    else
      var first := Apply(c, events[0]);
      var rest := Run(first.after, events[1..]);
      Step(rest.after, first.effects + rest.effects)
  }
}
