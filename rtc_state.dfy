/** The four tables that turn WebRTC state enumerations into the names the SDK logs. */
module RtcState {
  import opened WebRtc

  /** `IceConnectionState(_:)`: the name of an ICE connection state. */
  function IceConnectionStateName(state: IceConnectionState): (name: string)
    ensures name == "Unknown" <==> state.UnknownIceConnectionState?
  {
    match state
    case New => "New"
    case Checking => "Checking"
    case Connected => "Connected"
    case Completed => "Completed"
    case Failed => "Failed"
    case Disconnected => "Disconnected"
    case Closed => "Closed"
    case Count => "Count"
    case UnknownIceConnectionState(_) => "Unknown"
  }

  /** `SignalingState(_:)`: the name of a signaling state. */
  function SignalingStateName(state: SignalingState): (name: string)
    ensures name == "Unknown" <==> state.UnknownSignalingState?
  {
    match state
    case Stable => "Stable"
    case HaveLocalOffer => "Local Offer"
    case HaveLocalPrAnswer => "Local Answer"
    case HaveRemoteOffer => "Remote Offer"
    case HaveRemotePrAnswer => "Remote Answer"
    case Closed => "Closed"
    case UnknownSignalingState(_) => "Unknown"
  }

  /** `IceGatheringState(_:)`: the name of an ICE gathering state. */
  function IceGatheringStateName(state: IceGatheringState): (name: string)
    ensures name == "Unknown" <==> state.UnknownIceGatheringState?
  {
    match state
    case New => "New"
    case Gathering => "Gathering"
    case Complete => "Complete"
    case UnknownIceGatheringState(_) => "Unknown"
  }

  /** `PeerConnectionState(_:)`: the name of a peer-connection state. */
  function PeerConnectionStateName(state: PeerConnectionState): (name: string)
    ensures name == "Unknown" <==> state.UnknownPeerConnectionState?
  {
    match state
    case New => "New"
    case Connecting => "Connecting"
    case Connected => "Connected"
    case Disconnected => "Disconnected"
    case Failed => "Failed"
    case Closed => "Closed"
    case UnknownPeerConnectionState(_) => "Unknown"
  }

  /** Two known ICE connection states never share a name. */
  lemma IceConnectionNamesDistinct(a: IceConnectionState, b: IceConnectionState)
    requires !a.UnknownIceConnectionState? && !b.UnknownIceConnectionState?
    ensures IceConnectionStateName(a) == IceConnectionStateName(b) <==> a == b
  {
  }

  /** Two known signaling states never share a name; the provisional answers read as plain answers. */
  lemma SignalingNamesDistinct(a: SignalingState, b: SignalingState)
    requires !a.UnknownSignalingState? && !b.UnknownSignalingState?
    ensures SignalingStateName(a) == SignalingStateName(b) <==> a == b
    ensures SignalingStateName(HaveLocalPrAnswer) == "Local Answer"
    ensures SignalingStateName(HaveRemotePrAnswer) == "Remote Answer"
  {
  }

  /** The gathering table names each known state after itself. */
  lemma IceGatheringNames(state: IceGatheringState)
    ensures state == IceGatheringState.New <==> IceGatheringStateName(state) == "New"
    ensures state == Gathering <==> IceGatheringStateName(state) == "Gathering"
    ensures state == Complete <==> IceGatheringStateName(state) == "Complete"
  {
  }

  /** Two known peer-connection states never share a name. */
  lemma PeerConnectionNamesDistinct(a: PeerConnectionState, b: PeerConnectionState)
    requires !a.UnknownPeerConnectionState? && !b.UnknownPeerConnectionState?
    ensures PeerConnectionStateName(a) == PeerConnectionStateName(b) <==> a == b
  {
  }
}
