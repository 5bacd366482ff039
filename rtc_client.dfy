/**
 * RTCClient (RTCClient.swift): the wrapper around one WebRTC peer connection.
 * The engine is abstract: what it produces (the connection, an SDP) arrives as
 * parameters, and the wrapper's calls on it are logged.
 */
module RtcClient {
  import opened Wrappers
  import opened WebRtc
  import opened RtcState

  /** `stringifySDPType(_:)`: the wire name of an SDP type. */
  function StringifySdpType(sdpType: SdpType): (name: string)
    ensures name == "unknown" <==> sdpType.UnknownSdpType?
  {
    match sdpType
    case Offer => "offer"
    case Answer => "answer"
    case PrAnswer => "prAnswer"
    case Rollback => "rollback"
    case UnknownSdpType(_) => "unknown"
  }

  /** The four known SDP types have four different wire names. */
  lemma SdpTypeNamesDistinct(a: SdpType, b: SdpType)
    requires !a.UnknownSdpType? && !b.UnknownSdpType?
    ensures StringifySdpType(a) == StringifySdpType(b) <==> a == b
  {
  }

  datatype TrackKind = Audio | Video

  /** A media track (RTCMediaStreamTrack) with its `isEnabled` switch. */
  datatype Track = Track(kind: TrackKind, isEnabled: bool)

  /** An RTCRtpTransceiver: the track of its sender and the track of its receiver, each optional. */
  datatype Transceiver = Transceiver(sender: Option<Track>, receiver: Option<Track>)

  /** `track as? RTCAudioTrack`, then `isEnabled = enabled` on what the cast let through. */
  function EnableAudio(track: Option<Track>, enabled: bool): (r: Option<Track>)
    ensures r.Some? <==> track.Some?
    ensures r.Some? ==> r.value.kind == track.value.kind
    ensures r.Some? && r.value.kind == Audio ==> r.value.isEnabled == enabled
    ensures r.Some? && r.value.kind == Video ==> r == track
  {
    if track.Some? && track.value.kind == Audio then Some(track.value.(isEnabled := enabled)) else track
  }

  /** The calls the client makes on the engine (factory, peer connection, audio session). */
  datatype EngineCall =
    | CreatePeerConnection(iceServers: seq<string>)
    | AddTrack(trackId: string, streamIds: seq<string>)
    | CreateOffer | CreateAnswer
    | SetLocalDescription(description: SessionDescription)
    | SetRemoteDescription(description: SessionDescription)
    | AddCandidate(candidate: IceCandidate)
    | Close
    | ConfigureAudioSession
    | RouteToSpeaker(enabled: bool)

  /** What the client forwards to its RTCClientDelegate. */
  datatype DelegateEvent =
    | DidDiscover(candidate: IceCandidate)
    | DidAdd(streamId: string)
    | DidChange(state: PeerConnectionState)

  class RTCClient {
    /** Whether the factory produced a peer connection; `connection` is never reassigned after `init`. */
    const hasConnection: bool
    /** The peer connection's transceivers. */
    var transceivers: seq<Transceiver>
    ghost var engineCalls: seq<EngineCall>
    ghost var forwarded: seq<DelegateEvent>

    ghost predicate Valid()
      reads this
    {
      !hasConnection ==> transceivers == []
    }

    /**
     * `init(iceServers:)`: ask the factory for a peer connection (`connection`
     * is what it returns) and add the local audio track "audio0" to the
     * stream "stream", which only reaches an existing connection; then
     * configure the audio session, which `init` always creates.
     */
    constructor (iceServers: seq<string>, connection: Option<seq<Transceiver>>)
      ensures Valid()
      ensures hasConnection == connection.Some? && transceivers == connection.GetOr([])
      ensures engineCalls == [CreatePeerConnection(iceServers)] + (if connection.Some? then [AddTrack("audio0", ["stream"])] else []) + [ConfigureAudioSession]
      ensures forwarded == []
    {
      hasConnection := connection.Some?;
      transceivers := connection.GetOr([]);
      engineCalls := [CreatePeerConnection(iceServers)] + (if connection.Some? then [AddTrack("audio0", ["stream"])] else []) + [ConfigureAudioSession];
      forwarded := [];
    }

    /** `close()`: close the connection, if there is one. */
    method Close()
      modifies this`engineCalls
      ensures engineCalls == old(engineCalls) + (if hasConnection then [EngineCall.Close] else [])
    {
      if hasConnection {
        engineCalls := engineCalls + [EngineCall.Close];
      }
    }

    /**
     * `offer(completion:)`, with the engine's asynchronous steps run in turn:
     * `produced` is the SDP the engine creates, if any, and `setLocalFailed`
     * whether setting it as the local description reports an error. The
     * result is the one call of the completion, if it is called at all.
     */
    method Offer(produced: Option<SessionDescription>, setLocalFailed: bool) returns (completion: Option<SessionDescription>)
      modifies this`engineCalls
      ensures completion.Some? <==> hasConnection && produced.Some?
      ensures completion.Some? ==> completion == produced
      ensures engineCalls == old(engineCalls) + Negotiation(CreateOffer, produced)
    {
      completion := Negotiate(CreateOffer, produced);
    }

    /** `answer(completion:)`, as `Offer` with an answer asked of the engine. */
    method Answer(produced: Option<SessionDescription>, setLocalFailed: bool) returns (completion: Option<SessionDescription>)
      modifies this`engineCalls
      ensures completion.Some? <==> hasConnection && produced.Some?
      ensures completion.Some? ==> completion == produced
      ensures engineCalls == old(engineCalls) + Negotiation(CreateAnswer, produced)
    {
      completion := Negotiate(CreateAnswer, produced);
    }

    /** The engine calls of one offer or answer round. */
    function Negotiation(request: EngineCall, produced: Option<SessionDescription>): seq<EngineCall>
      reads this
    {
      if !hasConnection then []
      else [request] + (if produced.Some? then [SetLocalDescription(produced.value)] else [])
    }

    method Negotiate(request: EngineCall, produced: Option<SessionDescription>) returns (completion: Option<SessionDescription>)
      modifies this`engineCalls
      ensures completion == (if hasConnection then produced else Option.None)
      ensures engineCalls == old(engineCalls) + Negotiation(request, produced)
    {
      completion := Option.None;
      if !hasConnection {
        return;
      }
      engineCalls := engineCalls + [request];
      if produced.None? {
        return;
      }
      engineCalls := engineCalls + [SetLocalDescription(produced.value)];
      completion := produced;
    }

    /** `set(remoteSdp:)`: hand the remote description to the connection; failures are only logged. */
    method SetRemote(description: SessionDescription)
      modifies this`engineCalls
      ensures engineCalls == old(engineCalls) + (if hasConnection then [SetRemoteDescription(description)] else [])
    {
      if hasConnection {
        engineCalls := engineCalls + [SetRemoteDescription(description)];
      }
    }

    /** `set(remoteCandidate:)`: hand a remote candidate to the connection; failures are only logged. */
    method SetRemoteCandidate(candidate: IceCandidate)
      modifies this`engineCalls
      ensures engineCalls == old(engineCalls) + (if hasConnection then [AddCandidate(candidate)] else [])
    {
      if hasConnection {
        engineCalls := engineCalls + [AddCandidate(candidate)];
      }
    }

    /** `setAudioInput(_:)`: switch every audio track that a transceiver sends; nothing else changes. */
    method SetAudioInput(enabled: bool)
      requires Valid()
      modifies this`transceivers
      ensures Valid()
      ensures |transceivers| == |old(transceivers)|
      ensures forall i :: 0 <= i < |transceivers| ==>
        transceivers[i] == old(transceivers[i]).(sender := EnableAudio(old(transceivers[i]).sender, enabled))
    {
      var i := 0;
      while i < |transceivers|
        invariant 0 <= i <= |transceivers| == |old(transceivers)|
        invariant forall k :: 0 <= k < i ==>
          transceivers[k] == old(transceivers[k]).(sender := EnableAudio(old(transceivers[k]).sender, enabled))
        invariant forall k :: i <= k < |transceivers| ==> transceivers[k] == old(transceivers[k])
      {
        var t := transceivers[i];
        transceivers := transceivers[i := t.(sender := EnableAudio(t.sender, enabled))];
        i := i + 1;
      }
    }

    /** `setAudioOutput(_:)`: switch every audio track that a transceiver receives; nothing else changes. */
    method SetAudioOutput(enabled: bool)
      requires Valid()
      modifies this`transceivers
      ensures Valid()
      ensures |transceivers| == |old(transceivers)|
      ensures forall i :: 0 <= i < |transceivers| ==>
        transceivers[i] == old(transceivers[i]).(receiver := EnableAudio(old(transceivers[i]).receiver, enabled))
    {
      var i := 0;
      while i < |transceivers|
        invariant 0 <= i <= |transceivers| == |old(transceivers)|
        invariant forall k :: 0 <= k < i ==>
          transceivers[k] == old(transceivers[k]).(receiver := EnableAudio(old(transceivers[k]).receiver, enabled))
        invariant forall k :: i <= k < |transceivers| ==> transceivers[k] == old(transceivers[k])
      {
        var t := transceivers[i];
        transceivers := transceivers[i := t.(receiver := EnableAudio(t.receiver, enabled))];
        i := i + 1;
      }
    }

    /** `setSpeaker(_:)`: route the output through the audio session. */
    method SetSpeaker(enabled: bool)
      modifies this`engineCalls
      ensures engineCalls == old(engineCalls) + [RouteToSpeaker(enabled)]
    {
      engineCalls := engineCalls + [RouteToSpeaker(enabled)];
    }

    /** The connection's state changed: forwarded to the delegate unchanged; the result is the name logged. */
    method DidChangePeerConnectionState(state: PeerConnectionState) returns (description: string)
      modifies this`forwarded
      ensures forwarded == old(forwarded) + [DidChange(state)]
      ensures description == PeerConnectionStateName(state)
    {
      forwarded := forwarded + [DidChange(state)];
      description := PeerConnectionStateName(state);
    }

    /** The connection generated a local candidate: forwarded to the delegate unchanged. */
    method DidGenerate(candidate: IceCandidate)
      modifies this`forwarded
      ensures forwarded == old(forwarded) + [DidDiscover(candidate)]
    {
      forwarded := forwarded + [DidDiscover(candidate)];
    }

    /** The connection added a remote stream: forwarded to the delegate. */
    method DidAddStream(streamId: string)
      modifies this`forwarded
      ensures forwarded == old(forwarded) + [DidAdd(streamId)]
    {
      forwarded := forwarded + [DidAdd(streamId)];
    }

    /** The signaling state changed: only logged, by name. */
    method DidChangeSignalingState(state: SignalingState) returns (description: string)
      ensures description == SignalingStateName(state)
    {
      description := SignalingStateName(state);
    }

    /** The ICE connection state changed: only logged, by name. */
    method DidChangeIceConnectionState(state: IceConnectionState) returns (description: string)
      ensures description == IceConnectionStateName(state)
    {
      description := IceConnectionStateName(state);
    }

    /** The ICE gathering state changed: only logged, by name. */
    method DidChangeIceGatheringState(state: IceGatheringState) returns (description: string)
      ensures description == IceGatheringStateName(state)
    {
      description := IceGatheringStateName(state);
    }
  }
}
