# QboxCallSDK call core in Dafny

QboxCallSDK is an iOS library for placing one audio call over WebRTC. It signals through a JSON WebSocket. This project models its call core:

- `CallController`: starts and ends a call, switches the microphone, output and speaker, sends DTMF tones, and reacts to what its socket and its RTC client report.
- The JSON messages it sends and receives, and the socket URL it builds.
- The two socket adapters, `NativeSocket` (URLSession) and `StarscreamSocket`. Both notify their delegate only when `state` changes.
- `RTCClient`, the wrapper around the peer connection, including its in-place audio-track loops.
- The state-name tables of `RTCState.swift`.

Modules, one per file:

- `Wrappers`, `Json`, `WebRtc`: an `Option` type, the JSON values the library passes around as `[String: Any]`, and the WebRTC value types the core uses (`RTCSdpType`, `RTCSessionDescription`, `RTCIceCandidate`, and the four state enums, each with a case for values the SDK may add later). `Int32` is a `newtype`. The cast `as? Int` accepts a whole number within Swift's 64-bit `Int` range, and a boolean as 0 or 1.
- `RtcState`: the four name tables.
- `RtcClient`: `stringifySDPType` and the `RTCClient` class. The engine is abstract. What it produces (the peer connection with its transceivers, an SDP) comes in as parameters. The client's calls on the engine and what it forwards to its delegate go into ghost logs.
- `SocketProvider`: `SocketState` and the shared `didSet` rule. Each adapter's delegate sees a change log: the first entry differs from the initial state, adjacent entries differ, and the last entry is the current state.
- `WebSocket` and `StarScream`: the two adapters as classes. Their task or library calls, their pending completions and everything they tell their delegate sit in ghost logs. The environment's callbacks (a receive completing, the session opening or closing, a write finishing) are methods.
- `Messages`: the socket URL (`https` becomes `wss`, then `/websocket?token=` is appended), the four outbound messages, and the inbound decoder.
- `CallSession`: the controller as a state machine. A `Controller` value holds its fields. Each entry point is a function that returns the fields afterwards and the calls the controller made on its socket, its RTC client and its delegate (`Step(after, effects)`). `Inv` is the invariant every reachable controller satisfies.
- `CallProperties`: what the controller promises, proved about `CallSession`.
- `CallControl`: the `CallController` class with the Swift fields. Each method is proved to leave the fields and the effect log exactly as its `CallSession` step function says. The public methods keep `Inv`.

The controller's view of its collaborators:

- The socket is seen as the URL it was built from and the state it last reported. That matches the adapters, which report every change of `state`.
- The RTC client is seen as whether the engine produced a peer connection.
- `#available(iOS 13.0, *)` is the constant `native`. NativeSocket's `disconnect()` assigns Disconnected at once, so its `didSet` re-enters `socketDidChange(.Disconnected)` before `disconnect()` returns. The model does the same. StarscreamSocket's `disconnect()` only asks the library; its report arrives later as a separate event.

Behaviour worth knowing:

- `socketDidChange(.Connected)` asks for a new offer on every Connected report. When a socket drops and the offer's completion rebuilds it, the new socket's Connected asks for another offer (`ReconnectOffersAgain`).
- Only `https` is rewritten, to `wss`, and everywhere it occurs in the URL. A plain `http` URL stays `http` (`SocketUrlHttpExample`).
- The socket URL is the configured URL, rewritten, followed by `/websocket?token=` and the token, and nothing else.
- `sendDTMF` does not check `isIdle`. When there is no socket but a token is known, as after a call ended on a NativeSocket or after a StarscreamSocket reported Disconnected, it builds and connects a new socket to send the tone (`DtmfWithoutSocketReconnects`).
- The public `socketState` never reads Disconnected, because the socket is dropped as soon as it reports Disconnected (`SocketStateNeverDisconnected`).
- `socketDidChange` does not check which socket reports. If a StarscreamSocket that `getSocket()` replaced still reports Disconnected, that report drops the new socket (`StaleDisconnectDropsNewSocket`). Whether such a report can still arrive depends on object lifetimes, which the model leaves out.

## Model

| member | source | states |
|---|---|---|
| RtcState.IceConnectionStateName | Sources/QboxCallSDK/WebRTC/RTCState.swift:11-32 | the name is "Unknown" exactly for a state the table does not list |
| RtcState.SignalingStateName | Sources/QboxCallSDK/WebRTC/RTCState.swift:34-51 | the name is "Unknown" exactly for an unlisted state |
| RtcState.IceGatheringStateName | Sources/QboxCallSDK/WebRTC/RTCState.swift:53-64 | the name is "Unknown" exactly for an unlisted state |
| RtcState.PeerConnectionStateName | Sources/QboxCallSDK/WebRTC/RTCState.swift:66-83 | the name is "Unknown" exactly for an unlisted state |
| RtcState.IceConnectionNamesDistinct | Sources/QboxCallSDK/WebRTC/RTCState.swift:11-32 | two listed ICE connection states have the same name only if they are the same state |
| RtcState.SignalingNamesDistinct | Sources/QboxCallSDK/WebRTC/RTCState.swift:34-51 | listed signaling states have distinct names; the two pr-answer states are "Local Answer" and "Remote Answer" |
| RtcState.IceGatheringNames | Sources/QboxCallSDK/WebRTC/RTCState.swift:53-64 | "New", "Gathering" and "Complete" name exactly new, gathering and complete |
| RtcState.PeerConnectionNamesDistinct | Sources/QboxCallSDK/WebRTC/RTCState.swift:66-83 | listed peer connection states have distinct names |
| RtcClient.StringifySdpType | Sources/QboxCallSDK/WebRTC/RTCClient.swift:11-19 | the wire name is "unknown" exactly for an SDP type the SDK does not list |
| RtcClient.SdpTypeNamesDistinct | Sources/QboxCallSDK/WebRTC/RTCClient.swift:11-19 | the four listed SDP types have four different wire names |
| RtcClient.EnableAudio | Sources/QboxCallSDK/WebRTC/RTCClient.swift:150-160 | the `as? RTCAudioTrack` cast: an audio track gets the new `isEnabled`, a video track or a missing track is left alone |
| RtcClient.RTCClient.constructor | Sources/QboxCallSDK/WebRTC/RTCClient.swift:42-57 | asks the factory for a peer connection with the given ICE servers; the local audio track "audio0" in stream "stream" is added only when a connection exists; the audio session is then configured |
| RtcClient.RTCClient.Close | Sources/QboxCallSDK/WebRTC/RTCClient.swift:59-63 | closes the connection if there is one, and nothing else |
| RtcClient.RTCClient.Offer | Sources/QboxCallSDK/WebRTC/RTCClient.swift:94-105 | the completion runs, with the engine's SDP, exactly when there is a connection and the engine produced an SDP; the SDP is set as the local description first, and a failure there does not stop the completion |
| RtcClient.RTCClient.Answer | Sources/QboxCallSDK/WebRTC/RTCClient.swift:107-115 | as for Offer, with an answer requested |
| RtcClient.RTCClient.Negotiation | Sources/QboxCallSDK/WebRTC/RTCClient.swift:94-115 | the engine calls of one offer or answer round: none without a connection, else the request and, when an SDP comes back, setting it as the local description; `Offer`, `Answer` and `Negotiate` are proved to log exactly these |
| RtcClient.RTCClient.Negotiate | Sources/QboxCallSDK/WebRTC/RTCClient.swift:94-115 | the shared body of offer and answer: no engine call and no completion without a connection |
| RtcClient.RTCClient.SetRemote | Sources/QboxCallSDK/WebRTC/RTCClient.swift:117-125 | the remote description reaches the connection if there is one |
| RtcClient.RTCClient.SetRemoteCandidate | Sources/QboxCallSDK/WebRTC/RTCClient.swift:127-136 | the remote candidate reaches the connection if there is one |
| RtcClient.RTCClient.SetAudioInput | Sources/QboxCallSDK/WebRTC/RTCClient.swift:150-154 | every transceiver's sender audio track is switched in place; receivers, video tracks and the number of transceivers stay the same |
| RtcClient.RTCClient.SetAudioOutput | Sources/QboxCallSDK/WebRTC/RTCClient.swift:156-160 | every transceiver's receiver audio track is switched in place; senders stay the same |
| RtcClient.RTCClient.SetSpeaker | Sources/QboxCallSDK/WebRTC/RTCClient.swift:162-165 | the route change goes to the audio session |
| RtcClient.RTCClient.DidChangePeerConnectionState | Sources/QboxCallSDK/WebRTC/RTCClient.swift:198-202 | the state is forwarded to the delegate unchanged and logged by its table name |
| RtcClient.RTCClient.DidGenerate | Sources/QboxCallSDK/WebRTC/RTCClient.swift:204-207 | a local candidate is forwarded to the delegate unchanged |
| RtcClient.RTCClient.DidAddStream | Sources/QboxCallSDK/WebRTC/RTCClient.swift:175-178 | an added remote stream is forwarded to the delegate |
| RtcClient.RTCClient.DidChangeSignalingState | Sources/QboxCallSDK/WebRTC/RTCClient.swift:170-173 | a signaling change is only logged, by its table name |
| RtcClient.RTCClient.DidChangeIceConnectionState | Sources/QboxCallSDK/WebRTC/RTCClient.swift:188-191 | an ICE connection change is only logged, by its table name |
| RtcClient.RTCClient.DidChangeIceGatheringState | Sources/QboxCallSDK/WebRTC/RTCClient.swift:193-196 | an ICE gathering change is only logged, by its table name |
| SocketProvider.DidSet | Sources/QboxCallSDK/WebSocket/WebSocket.swift:16-21 | the `didSet` guard: the delegate hears of an assignment exactly when the value changes, and then hears the new value once |
| SocketProvider.DidSetKeepsChangeLog | Sources/QboxCallSDK/WebSocket/StarScream.swift:17-22 | one assignment keeps the delegate's notifications a change log ending in the current state |
| SocketProvider.Notifications | Sources/QboxCallSDK/WebSocket/WebSocket.swift:16-21 | the notifications a run of assignments to `state` produces, each by the `didSet` rule from the value before it; `NotificationsAreChanges` states what they are |
| SocketProvider.NotificationsAreChanges | Sources/QboxCallSDK/WebSocket/WebSocket.swift:16-21 | after any sequence of assignments, the delegate has heard a change log ending in the last value, never more notifications than assignments, and only values that were assigned |
| WebSocket.NativeSocket.constructor | Sources/QboxCallSDK/WebSocket/WebSocket.swift:30-37 | a task exists only when the URL parses; the state starts at None with nothing pending |
| WebSocket.NativeSocket.SetState | Sources/QboxCallSDK/WebSocket/WebSocket.swift:16-21 | assigns the state and notifies by the `didSet` rule |
| WebSocket.NativeSocket.Connect | Sources/QboxCallSDK/WebSocket/WebSocket.swift:43-46 | resumes the task and registers one receive handler; a no-op without a task |
| WebSocket.NativeSocket.Listen | Sources/QboxCallSDK/WebSocket/WebSocket.swift:60-61 | registers one receive handler on the task, if there is one |
| WebSocket.NativeSocket.Send | Sources/QboxCallSDK/WebSocket/WebSocket.swift:48-58 | a message that does not serialise is dropped and its completion never runs; otherwise it is written to the task with its completion pending |
| WebSocket.NativeSocket.SendFinished | Sources/QboxCallSDK/WebSocket/WebSocket.swift:55-57 | a finished write runs its completion once, whether or not it failed |
| WebSocket.NativeSocket.OnReceive | Sources/QboxCallSDK/WebSocket/WebSocket.swift:61-84 | a text frame that parses is delivered and a new receive is registered; a binary frame re-arms without delivering; a text frame that does not parse ends listening; a failure disconnects |
| WebSocket.NativeSocket.Disconnect | Sources/QboxCallSDK/WebSocket/WebSocket.swift:87-90 | cancels the task and the state becomes Disconnected; the delegate hears of it only on a change |
| WebSocket.NativeSocket.DidOpen | Sources/QboxCallSDK/WebSocket/WebSocket.swift:95-97 | the session opening makes the state Connected |
| WebSocket.NativeSocket.DidClose | Sources/QboxCallSDK/WebSocket/WebSocket.swift:99-101 | the session closing disconnects the adapter |
| StarScream.StarscreamSocket.constructor | Sources/QboxCallSDK/WebSocket/StarScream.swift:25-29 | the state starts at None with no library calls and nothing pending |
| StarScream.StarscreamSocket.SetState | Sources/QboxCallSDK/WebSocket/StarScream.swift:17-22 | assigns the state and notifies by the `didSet` rule |
| StarScream.StarscreamSocket.Connect | Sources/QboxCallSDK/WebSocket/StarScream.swift:31-33 | asks the library to connect |
| StarScream.StarscreamSocket.Disconnect | Sources/QboxCallSDK/WebSocket/StarScream.swift:35-37 | asks the library to disconnect; the state does not change until the library reports |
| StarScream.StarscreamSocket.Send | Sources/QboxCallSDK/WebSocket/StarScream.swift:39-48 | a message that does not serialise is dropped; otherwise it is written with its completion pending |
| StarScream.StarscreamSocket.WriteFinished | Sources/QboxCallSDK/WebSocket/StarScream.swift:45-47 | a finished write runs its completion once |
| StarScream.StarscreamSocket.DidConnect | Sources/QboxCallSDK/WebSocket/StarScream.swift:52-54 | the state becomes Connected |
| StarScream.StarscreamSocket.DidDisconnect | Sources/QboxCallSDK/WebSocket/StarScream.swift:56-61 | the state becomes Disconnected, whether or not an error is reported |
| StarScream.StarscreamSocket.DidReceiveMessage | Sources/QboxCallSDK/WebSocket/StarScream.swift:63-73 | text that parses to a dictionary is delivered once; other text is dropped |
| StarScream.StarscreamSocket.DidReceiveData | Sources/QboxCallSDK/WebSocket/StarScream.swift:75 | binary frames change nothing |
| Json.StringField | Sources/QboxCallSDK/CallController.swift:198-217 | `dict[key] as? String`: the string when the key holds one, else none; its cases are stated by the decoder lemmas (`DecodeAnswer`, `DecodeCandidateFields`, `DecodeOtherEvent`) |
| Json.IntField | Sources/QboxCallSDK/CallController.swift:218 | `dict[key] as? Int`: none for a missing key, otherwise what `AsInt` gives; `DecodeCandidateFields` states each case |
| Json.ObjectField | Sources/QboxCallSDK/CallController.swift:201-213 | `dict[key] as? [String: Any]`: the dictionary when the key holds one, else none; `DecodeAnswer` and `DecodeCandidateWithoutDictionary` state its cases |
| Json.AsInt | Sources/QboxCallSDK/CallController.swift:218 | `as? Int` gives a whole number only when it fits in 64 bits, reads a boolean as 0 or 1, and rejects strings, objects and fractional numbers |
| Messages.ReplaceAll | Sources/QboxCallSDK/CallController.swift:131 | `replacingOccurrences(of:with:)`, left to right and without overlap; `RewriteLeadingHttps`, `RewriteKeepsOtherFirst`, `ReplaceAllWithoutMatch` and `RewriteLeavesNoHttps` state what it does |
| Messages.SocketUrl | Sources/QboxCallSDK/CallController.swift:131 | the URL `setSocket()` builds: the configured URL with "https" rewritten to "wss", then `/websocket?token=` and the token; `SocketUrlWithoutHttps`, `SocketUrlHttpsExample` and `SocketUrlHttpExample` state it |
| Messages.ReplaceAllWithoutMatch | Sources/QboxCallSDK/CallController.swift:131 | `replacingOccurrences` leaves a string without the pattern unchanged |
| Messages.RewriteLeavesNoHttps | Sources/QboxCallSDK/CallController.swift:131 | no "https" is left anywhere in the rewritten URL |
| Messages.SocketUrlWithoutHttps | Sources/QboxCallSDK/CallController.swift:131 | a URL without "https" only gets the `/websocket?token=` suffix |
| Messages.RewriteLeadingHttps | Sources/QboxCallSDK/CallController.swift:131 | a leading "https" becomes "wss" and the rest is rewritten the same way |
| Messages.RewriteKeepsOtherFirst | Sources/QboxCallSDK/CallController.swift:131 | a first character that does not start "https" is kept and the rest is rewritten the same way |
| Messages.PrefixWithoutW | Sources/QboxCallSDK/CallController.swift:131 | the rewrite only introduces text starting with 'w'; a prefix of the result without 'w' is a prefix of the input |
| Messages.SocketUrlHttpsExample | Sources/QboxCallSDK/CallController.swift:131 | "https://host" with token "abc" gives "wss://host/websocket?token=abc" |
| Messages.SocketUrlHttpExample | Sources/QboxCallSDK/CallController.swift:131 | "http://host" stays "http" |
| Messages.HangupMessage | Sources/QboxCallSDK/CallController.swift:113 | the dictionary `endCall` sends, `event` "hangup" and nothing else; `OutboundMessagesDecode` shows the decoder reads it as a hangup |
| Messages.DtmfMessage | Sources/QboxCallSDK/CallController.swift:163-166 | the dictionary `sendDTMF` sends, `event` "dtmf" with the digit under `dtmf.digit`; `OutboundMessagesDecode` shows the decoder ignores it |
| Messages.CallMessage | Sources/QboxCallSDK/CallController.swift:178-184 | the dictionary the offer completion sends, `event` "call" with the SDP and its `stringifySDPType` name under `call.sdp`; `OutboundMessagesDecode` shows the decoder ignores it |
| Messages.CandidateMessage | Sources/QboxCallSDK/CallController.swift:234-244 | the dictionary `rtcClient(didDiscover:)` sends, with a missing mid sent as "0" and the index as an `Int`; `CandidateRoundTrip` decodes it back |
| Messages.AnswerSdp | Sources/QboxCallSDK/CallController.swift:201-204 | the guard chain `answer as? [String: Any]`, `sdp as? [String: Any]`, `sdp as? String`: the SDP string exactly when every cast succeeds; `DecodeAnswer` states it |
| Messages.DecodeAsWritten | Sources/QboxCallSDK/CallController.swift:197-230 | as written: `socketDidRecieve` with each of its four branches, including the trap of `Int32(LineIndex)` on an index outside 32 bits (`LineIndexOverflowTraps`) |
| Messages.Decode | Sources/QboxCallSDK/CallController.swift:197-230 | corrected: the same decoder except that a candidate whose index does not fit in 32 bits is dropped instead of trapping; `DecodeAgreesWhereNoTrap` relates it to `DecodeAsWritten`, and the decoder lemmas state each branch |
| Messages.DecodeAnswer | Sources/QboxCallSDK/CallController.swift:200-209 | an answer event, whatever else the message holds, is acted on exactly when `answer.sdp.sdp` is a string, carries that string, and is otherwise ignored |
| Messages.DecodeCandidateWithoutDictionary | Sources/QboxCallSDK/CallController.swift:211-214 | a candidate event without a `candidate` dictionary is dropped |
| Messages.DecodeCandidateFields | Sources/QboxCallSDK/CallController.swift:211-221 | each candidate field is read on its own: a string SDP or "", a string mid or none, the line index as `as? Int` reads it (a whole number within 64 bits, a boolean as 0 or 1, otherwise 0); the candidate is applied exactly when that index fits in 32 bits |
| Messages.DecodeHangup | Sources/QboxCallSDK/CallController.swift:223-225 | a hangup event is a hangup whatever else the message holds |
| Messages.DecodeOtherEvent | Sources/QboxCallSDK/CallController.swift:198-229 | an event that is missing, not a string or not one of the three is ignored |
| Messages.CandidateRoundTrip | Sources/QboxCallSDK/CallController.swift:234-244 | decoding the candidate the controller sends gives back the same candidate, with a missing mid replaced by "0" |
| Messages.OutboundMessagesDecode | Sources/QboxCallSDK/CallController.swift:113-184 | of the controller's own hangup, DTMF and call messages, only the hangup would be acted on if it came back |
| Messages.LineIndexOverflowTraps | Sources/QboxCallSDK/CallController.swift:217-219 | a candidate with `sdpMLineIndex` 2147483648 traps in `Int32(LineIndex)` as written |
| Messages.LineIndexBeyond64BitsDefaults | Sources/QboxCallSDK/CallController.swift:217-219 | an `sdpMLineIndex` of 2^64 is rejected by `as? Int`, so the candidate is applied with index 0 |
| Messages.DecodeAgreesWhereNoTrap | Sources/QboxCallSDK/CallController.swift:197-230 | the corrected decoder agrees with the code wherever the code does not trap, and drops the candidate where it would |
| CallSession.Init | Sources/QboxCallSDK/CallController.swift:50-53 | `init(url:)`: idle, no token, both settings off, no socket and no RTC client; `ReachableControllersAreValid` shows it satisfies `Inv` |
| CallSession.Inv | Sources/QboxCallSDK/CallController.swift:38-48 | the invariant of every reachable controller: a socket was built from the current URL and token and has not reported Disconnected, and a call that is not idle has a socket and an RTC client with a peer connection; `RunKeepsInvariant` proves it is kept |
| CallSession.SocketStateOf | Sources/QboxCallSDK/CallController.swift:44-48 | the public `socketState`, `socket?.state ?? .None`; `SocketStateNeverDisconnected` states it is never Disconnected |
| CallSession.SetSocket | Sources/QboxCallSDK/CallController.swift:125-143 | `setSocket()`: nothing without a token, otherwise a new socket on `SocketUrl` of the URL and token replaces the old one; `StartCallWithoutToken` and `DtmfWithoutTokenDropped` state the guard |
| CallSession.SetRtc | Sources/QboxCallSDK/CallController.swift:119-123 | `setRTC()`: a new RTC client on the one STUN server, with a peer connection when the engine produced one |
| CallSession.SocketDidChange | Sources/QboxCallSDK/CallController.swift:171-195 | `socketDidChange(state:)`: Connected asks the RTC client for an offer, Disconnected drops the socket and marks the call idle, and every state then goes to the delegate; `SocketChangeReportedOnce` states each branch |
| CallSession.DisconnectSocket | Sources/QboxCallSDK/CallController.swift:91-93 | `socket?.disconnect()`, with NativeSocket's synchronous report of Disconnected; `DisconnectSocketKeepsInv` states what it keeps |
| CallSession.Dispose | Sources/QboxCallSDK/CallController.swift:83-89 | `dispose()`: idle, `rtc?.close()`, then `socket?.disconnect()`; `DisposeEffects` and `DisposeIdempotent` state it |
| CallSession.GetSocket | Sources/QboxCallSDK/CallController.swift:99-106 | `getSocket()`: a Connected socket is kept, any other is disconnected, rebuilt and connected; `EndCallOnConnectedSocket` and `EndCallReconnects` state both paths |
| CallSession.SendThroughSocket | Sources/QboxCallSDK/CallController.swift:99-116 | `getSocket()?.send(message) { completion }`: the message goes out on the socket `getSocket()` leaves, if any; `SendThroughSocketKeepsInv` states that socket comes from the current URL and token |
| CallSession.StartCall | Sources/QboxCallSDK/CallController.swift:55-81 | `startCall(token:with:)` with the Bool it returns; `StartCallWhenBusy`, `StartCallOutcome` and `StartCallWithoutToken` state its paths |
| CallSession.EndCall | Sources/QboxCallSDK/CallController.swift:108-117 | `endCall()`: nothing when idle, otherwise a hangup through `getSocket()` whose completion disposes; `EndCallWhenIdle`, `EndCallOnConnectedSocket` and `EndCallReconnects` state it |
| CallSession.SendCompleted | Sources/QboxCallSDK/CallController.swift:113-116 | the socket running a send's completion: the hangup's disposes, the others are empty; `HangupCompletionEndsCall` states it |
| CallSession.SetAudioInput | Sources/QboxCallSDK/CallController.swift:147-150 | `setAudioInput(isEnabled:)`: forwards to the RTC client and stores the microphone flag; `AudioOutputNotStored` states what is stored |
| CallSession.SetAudioOutput | Sources/QboxCallSDK/CallController.swift:152-154 | `setAudioOutput(isEnabled:)`: forwards to the RTC client and stores nothing; `AudioOutputNotStored` states it |
| CallSession.SetSpeaker | Sources/QboxCallSDK/CallController.swift:156-159 | `setSpeaker(isEnabled:)`: forwards to the RTC client and stores the speaker flag; `AudioOutputNotStored` states what is stored |
| CallSession.SendDtmf | Sources/QboxCallSDK/CallController.swift:161-167 | `sendDTMF(digit:)`: the DTMF message through `getSocket()` with an empty completion, whether or not the call is idle; `DtmfWithoutSocketReconnects` and `DtmfWithoutTokenDropped` state it |
| CallSession.OfferCreated | Sources/QboxCallSDK/CallController.swift:174-185 | the completion of `rtc?.offer` in `socketDidChange`: the call message through `getSocket()`; `ReconnectOffersAgain` follows it through a reconnect |
| CallSession.SocketDidReceive | Sources/QboxCallSDK/CallController.swift:197-230 | `socketDidRecieve(data:)` through the corrected decoder: an answer or candidate goes to the RTC client, a hangup disposes, anything else changes nothing; the four Inbound lemmas state it |
| CallSession.DidDiscoverCandidate | Sources/QboxCallSDK/CallController.swift:234-245 | `rtcClient(didDiscover:)`: the candidate message on the current socket, without `getSocket()`; `LocalCandidateSentAsIs` states it |
| CallSession.PeerConnectionDidChange | Sources/QboxCallSDK/CallController.swift:250-262 | `rtcClient(didChange:)`: on Connected the stored microphone and then speaker settings are applied again, and every state goes to the delegate; `PeerConnectedReappliesSettings` states it |
| CallSession.Apply | Sources/QboxCallSDK/CallController.swift:33-262 | one entry point of the controller, chosen by the event; `InvariantHolds` proves each keeps `Inv` |
| CallSession.Run | Sources/QboxCallSDK/CallController.swift:33-262 | a sequence of entry points, one after another, with their effects in order; `RunKeepsInvariant` proves it keeps `Inv` |
| CallProperties.DisconnectSocketKeepsInv | Sources/QboxCallSDK/CallController.swift:91-93 | `socket?.disconnect()` keeps the socket part of the invariant and leaves the URL, token, settings and RTC client alone; an idle controller stays idle |
| CallProperties.StartCallKeepsInv | Sources/QboxCallSDK/CallController.swift:55-81 | `startCall` keeps `Inv` on every path, including the two failures that set `isIdle` back |
| CallProperties.DisposeKeepsInv | Sources/QboxCallSDK/CallController.swift:83-89 | `dispose` keeps `Inv` |
| CallProperties.SendThroughSocketKeepsInv | Sources/QboxCallSDK/CallController.swift:99-106 | `getSocket()?.send` keeps `Inv`: a rebuilt socket comes from the current URL and token |
| CallProperties.SocketDidChangeKeepsInv | Sources/QboxCallSDK/CallController.swift:171-195 | every socket report, from the current socket or not, keeps `Inv` |
| CallProperties.SocketDidReceiveKeepsInv | Sources/QboxCallSDK/CallController.swift:197-230 | every inbound message keeps `Inv` |
| CallProperties.InvariantHolds | Sources/QboxCallSDK/CallController.swift:33-262 | every entry point keeps `Inv`: a socket was built from the current URL and token and has not reported Disconnected, and a call that is not idle has a socket and an RTC client with a peer connection |
| CallProperties.RunKeepsInvariant | Sources/QboxCallSDK/CallController.swift:33-262 | any sequence of entry points keeps `Inv` |
| CallProperties.ReachableControllersAreValid | Sources/QboxCallSDK/CallController.swift:50-53 | every controller reachable from `init(url:)` satisfies `Inv` |
| CallProperties.SocketStateNeverDisconnected | Sources/QboxCallSDK/CallController.swift:44-48 | `socketState` is never Disconnected, and it is None without a socket |
| CallProperties.StartCallWhenBusy | Sources/QboxCallSDK/CallController.swift:56-61 | a second `startCall` returns false and touches nothing |
| CallProperties.StartCallOutcome | Sources/QboxCallSDK/CallController.swift:55-81 | from idle, the call starts exactly when a token is known and the engine gives a peer connection, and then the controller is busy; token and settings are adopted whatever the outcome; the socket is built first, the RTC client second, and `connect()` is called only on success |
| CallProperties.StartCallWithoutToken | Sources/QboxCallSDK/CallController.swift:125-129 | a fresh controller given no token returns false, builds nothing and stays idle |
| CallProperties.DisposeEffects | Sources/QboxCallSDK/CallController.swift:83-89 | dispose leaves the controller idle, closes the RTC client and disconnects the socket; a NativeSocket also reports Disconnected at once and is dropped, a StarscreamSocket stays until the library reports |
| CallProperties.DisposeIdempotent | Sources/QboxCallSDK/CallController.swift:83-89 | disposing twice leaves the controller as disposing once did |
| CallProperties.EndCallWhenIdle | Sources/QboxCallSDK/CallController.swift:108-111 | `endCall` on an idle controller does nothing |
| CallProperties.EndCallOnConnectedSocket | Sources/QboxCallSDK/CallController.swift:99-117 | on a connected socket, the hangup is sent as it is with the dispose completion |
| CallProperties.EndCallReconnects | Sources/QboxCallSDK/CallController.swift:99-117 | on a socket that is not connected, the controller disconnects it, builds and connects a new one from the same URL and token, then sends the hangup; with a NativeSocket the call is marked idle on the way |
| CallProperties.HangupCompletionEndsCall | Sources/QboxCallSDK/CallController.swift:113-116 | the hangup's completion disposes the call and leaves it idle; other completions do nothing |
| CallProperties.SocketChangeReportedOnce | Sources/QboxCallSDK/CallController.swift:171-195 | every socket report reaches the delegate exactly once, last; Connected asks for an offer when there is an RTC client, Disconnected drops the socket and makes the call idle and changes nothing else, None makes no other call; apart from that only the reporting socket's recorded state changes |
| CallProperties.ReconnectOffersAgain | Sources/QboxCallSDK/CallController.swift:171-195 | a socket that drops after asking for an offer is rebuilt and connected by the offer's completion, and its Connected asks for a second offer |
| CallProperties.StaleDisconnectDropsNewSocket | Sources/QboxCallSDK/CallController.swift:188-190 | after a reconnecting `endCall` on a StarscreamSocket, a Disconnected report from the replaced socket, if one still arrives, drops the new socket and makes the call idle |
| CallProperties.InboundAnswerSetsRemote | Sources/QboxCallSDK/CallController.swift:200-209 | an answer with an sdp becomes the RTC client's remote answer |
| CallProperties.InboundIgnored | Sources/QboxCallSDK/CallController.swift:198-229 | an answer without an sdp, and an unknown or missing event, change nothing |
| CallProperties.InboundHangupDisposes | Sources/QboxCallSDK/CallController.swift:223-225 | a remote hangup disposes the call |
| CallProperties.InboundCandidateDefaults | Sources/QboxCallSDK/CallController.swift:211-221 | an empty candidate dictionary reaches the RTC client as the default candidate |
| CallProperties.LocalCandidateSentAsIs | Sources/QboxCallSDK/CallController.swift:234-245 | a local candidate goes out on the current socket with no reconnect, and the far end decodes it back with the mid defaulted to "0" |
| CallProperties.PeerConnectedReappliesSettings | Sources/QboxCallSDK/CallController.swift:250-262 | a peer connection reaching Connected gets the stored microphone and then speaker settings; every state reaches the delegate |
| CallProperties.SettingsSurviveUntilConnected | Sources/QboxCallSDK/CallController.swift:147-159 | microphone and speaker choices made before the peer connects are the ones applied when it does; the output choice is not stored |
| CallProperties.AudioOutputNotStored | Sources/QboxCallSDK/CallController.swift:147-159 | `setAudioOutput` leaves the controller unchanged; the other two store exactly their own field |
| CallProperties.DtmfWithoutSocketReconnects | Sources/QboxCallSDK/CallController.swift:161-167 | a DTMF with no socket but a known token builds and connects a socket and sends the tone, even when the call is idle |
| CallProperties.DtmfWithoutTokenDropped | Sources/QboxCallSDK/CallController.swift:125-129 | with no token, a DTMF does nothing |
| CallControl.CallController.constructor | Sources/QboxCallSDK/CallController.swift:50-53 | idle, no token, settings off, no socket and no RTC client |
| CallControl.CallController.SocketState | Sources/QboxCallSDK/CallController.swift:44-48 | the socket's state, or None without one; never Disconnected |
| CallControl.CallController.StartCall | Sources/QboxCallSDK/CallController.swift:55-81 | fields, effects and the returned Bool as `CallSession.StartCall` gives them; keeps `Inv` |
| CallControl.CallController.Dispose | Sources/QboxCallSDK/CallController.swift:83-89 | as `CallSession.Dispose` |
| CallControl.CallController.DisconnectSocket | Sources/QboxCallSDK/CallController.swift:91-93 | as `CallSession.DisconnectSocket`, including NativeSocket's re-entry into `socketDidChange` |
| CallControl.CallController.Disconnect | Sources/QboxCallSDK/CallController.swift:95-97 | as `CallSession.Dispose`; keeps `Inv` |
| CallControl.CallController.GetSocket | Sources/QboxCallSDK/CallController.swift:99-106 | as `CallSession.GetSocket`; the result says whether a socket is present |
| CallControl.CallController.SendThroughSocket | Sources/QboxCallSDK/CallController.swift:99-184 | as `CallSession.SendThroughSocket`: the `getSocket()?.send` used for the hangup (:113), the DTMF (:163-166) and the offer completion (:178-184) |
| CallControl.CallController.EndCall | Sources/QboxCallSDK/CallController.swift:108-117 | as `CallSession.EndCall`; keeps `Inv` |
| CallControl.CallController.SendCompleted | Sources/QboxCallSDK/CallController.swift:113-116 | as `CallSession.SendCompleted`; keeps `Inv` |
| CallControl.CallController.SetRtc | Sources/QboxCallSDK/CallController.swift:119-123 | as `CallSession.SetRtc` |
| CallControl.CallController.SetSocket | Sources/QboxCallSDK/CallController.swift:125-143 | as `CallSession.SetSocket` |
| CallControl.CallController.SetAudioInput | Sources/QboxCallSDK/CallController.swift:147-150 | as `CallSession.SetAudioInput`; keeps `Inv` |
| CallControl.CallController.SetAudioOutput | Sources/QboxCallSDK/CallController.swift:152-154 | as `CallSession.SetAudioOutput`; keeps `Inv` |
| CallControl.CallController.SetSpeaker | Sources/QboxCallSDK/CallController.swift:156-159 | as `CallSession.SetSpeaker`; keeps `Inv` |
| CallControl.CallController.SendDtmf | Sources/QboxCallSDK/CallController.swift:161-167 | as `CallSession.SendDtmf`; keeps `Inv` |
| CallControl.CallController.SocketDidChange | Sources/QboxCallSDK/CallController.swift:171-195 | as `CallSession.SocketDidChange`; keeps `Inv` when it held before |
| CallControl.CallController.OfferCreated | Sources/QboxCallSDK/CallController.swift:174-186 | as `CallSession.OfferCreated`; keeps `Inv` |
| CallControl.CallController.SocketDidReceive | Sources/QboxCallSDK/CallController.swift:197-230 | as `CallSession.SocketDidReceive`, through the corrected decoder; keeps `Inv` |
| CallControl.CallController.DidDiscover | Sources/QboxCallSDK/CallController.swift:234-245 | as `CallSession.DidDiscoverCandidate`; keeps `Inv` |
| CallControl.CallController.PeerConnectionDidChange | Sources/QboxCallSDK/CallController.swift:250-262 | as `CallSession.PeerConnectionDidChange`; keeps `Inv` |

## Left out

- Logging (`QBoxLog`) is not modelled. It has no effect on state.
- The completion hops onto the main queue (`DispatchQueue.main.async`), the weak `self`, delegate and socket references, and concurrency in general are not modelled. Each callback is one event applied to the current state, and a released controller is not represented.
- `AudioSession.swift` is not part of this model. `setSpeaker` and `configure()` appear only as logged engine calls (`RouteToSpeaker`, `ConfigureAudioSession`).
- JSON serialisation and parsing are not modelled. `send` takes whether the dictionary serialises as a parameter, and a received frame comes in as what JSONSerialization made of it. `Json` distinguishes only objects, strings, numbers and booleans. A number is the exact value written in the message; the rounding of JSONSerialization's `Double` for long or fractional numbers is not modelled.
- String semantics: Swift's `replacingOccurrences` compares Unicode characters; the model compares `char` by `char`.
- StarScream.StarscreamSocket.constructor: `URL(string: url)!` crashes on a URL that does not parse, and the model does not capture that crash. It can be reached from `startCall`: `SocketUrl` joins the configured URL and the caller's token unchecked, so a token with a space in it makes the URL fail to parse on the Starscream path.
- RtcClient.RTCClient.Offer and RtcClient.RTCClient.Answer: the engine's asynchronous chain (create, then set the local description, then the completion) is collapsed into one call, with the engine's results as parameters. The `[weak self]` guard inside it is not modelled.
- RTC delegate callbacks that only log (`didRemove` stream and candidates, `peerConnectionShouldNegotiate`, `didOpen` data channel) and the empty `rtcClient(didAdd:)` of the controller are not modelled.
- `createMediaSenders()` is modelled only as the `AddTrack` call it makes. The WebRTC factory and track objects are abstract, and so are the `RTCConfiguration` options. The transceivers are the list the connection is given, so the transceiver of the sender `AddTrack` adds is assumed to be among them; the model does not append one.
- `CallSettings` is a class in Swift, so the caller of `startCall(with:)` shares the object the controller later changes. The model treats settings as a value, so that aliasing is not captured.
- The controller's `delegate` is modelled only as the `SocketStateReported` and `PeerStateReported` effects; whether one is set is not.
- CallSession.SocketDidChange: whether a report comes from the current socket is a parameter, because the controller does not record the socket identity it would need to decide that. Allowing `fromCurrent` to be false over-approximates: whether a replaced socket, no longer referenced by the controller, can still report depends on object lifetimes, which are not modelled.

## Findings

| source | as written | input that shows it | evidently intended | confidence | as-written member | corrected member |
|---|---|---|---|---|---|---|
| Sources/QboxCallSDK/CallController.swift:217-219 | `Int32(LineIndex)` converts an inbound `sdpMLineIndex` that the peer controls, and traps when it is outside the Int32 range | `{"event": "candidate", "candidate": {"sdpMLineIndex": 2147483648}}` | a candidate whose index cannot be an `Int32` is handled without a crash: either dropped, like the other malformed inbound messages, or given index 0, like the `?? 0` fallback of line 218 that an index beyond 64 bits already gets (`LineIndexBeyond64BitsDefaults`); the corrected member drops it, which is the model's choice between the two | not executed | Messages.LineIndexOverflowTraps | Messages.DecodeAgreesWhereNoTrap |
