/**
 * Value types of the WebRTC framework that the SDK passes around. Each
 * Objective-C enumeration carries an extra case for raw values this version of
 * the SDK does not know, which is what the Swift `@unknown default` branches
 * catch.
 */
module WebRtc {
  import opened Wrappers

  newtype int32 = x: int | -0x8000_0000 <= x < 0x8000_0000

  /** RTCSdpType */
  datatype SdpType = Offer | PrAnswer | Answer | Rollback | UnknownSdpType(raw: int)

  /** RTCSessionDescription */
  datatype SessionDescription = SessionDescription(sdpType: SdpType, sdp: string)

  /** RTCIceCandidate */
  datatype IceCandidate = IceCandidate(sdp: string, sdpMLineIndex: int32, sdpMid: Option<string>)

  /** RTCPeerConnectionState */
  datatype PeerConnectionState =
    | New | Connecting | Connected | Disconnected | Failed | Closed
    | UnknownPeerConnectionState(raw: int)

  /** RTCIceConnectionState */
  datatype IceConnectionState =
    | New | Checking | Connected | Completed | Failed | Disconnected | Closed | Count
    | UnknownIceConnectionState(raw: int)

  /** RTCSignalingState */
  datatype SignalingState =
    | Stable | HaveLocalOffer | HaveLocalPrAnswer | HaveRemoteOffer | HaveRemotePrAnswer | Closed
    | UnknownSignalingState(raw: int)

  /** RTCIceGatheringState */
  datatype IceGatheringState = New | Gathering | Complete | UnknownIceGatheringState(raw: int)
}
