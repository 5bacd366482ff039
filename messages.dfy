/**
 * The signaling protocol of CallController.swift: the socket URL, the
 * dictionaries the controller sends, and the decoding of the dictionaries it
 * receives.
 */
module Messages {
  import opened Wrappers
  import opened Json
  import opened WebRtc
  import RtcClient

  // ---------------------------------------------------------------- socket URL

  /** `s.replacingOccurrences(of: pattern, with: replacement)`: leftmost, non-overlapping occurrences. */
  function ReplaceAll(s: string, pattern: string, replacement: string): string
    decreases |s|
  {
    if |pattern| == 0 || |s| == 0 then s
    else if OccursAt(s, pattern, 0) then replacement + ReplaceAll(s[|pattern|..], pattern, replacement)
    else [s[0]] + ReplaceAll(s[1..], pattern, replacement)
  }

  predicate OccursAt(s: string, pattern: string, i: nat) {
    i + |pattern| <= |s| && s[i..i + |pattern|] == pattern
  }

  ghost predicate Occurs(s: string, pattern: string) {
    exists i: nat :: OccursAt(s, pattern, i)
  }

  /** The URL `setSocket()` gives the socket: only "https" is rewritten, to "wss". */
  function SocketUrl(url: string, token: string): string {
    ReplaceAll(url, "https", "wss") + "/websocket?token=" + token
  }

  /** A string without the pattern comes back unchanged. */
  lemma {:induction false} ReplaceAllWithoutMatch(s: string, pattern: string, replacement: string)
    requires !Occurs(s, pattern)
    ensures ReplaceAll(s, pattern, replacement) == s
    decreases |s|
  {
    if |pattern| > 0 && |s| > 0 {
      assert !OccursAt(s, pattern, 0);
      forall i: nat | OccursAt(s[1..], pattern, i) ensures OccursAt(s, pattern, i + 1) {
        assert s[1..][i..i + |pattern|] == s[i + 1..i + 1 + |pattern|];
      }
      ReplaceAllWithoutMatch(s[1..], pattern, replacement);
    }
  }

  /** A prefix of the rewritten string that has no 'w' in it was already a prefix of the original. */
  lemma {:induction false} PrefixWithoutW(t: string, q: string)
    requires q <= ReplaceAll(t, "https", "wss")
    requires 'w' !in q
    ensures q <= t
    decreases |t|
  {
    if |q| > 0 && |t| > 0 && !OccursAt(t, "https", 0) {
      var r := ReplaceAll(t[1..], "https", "wss");
      assert ReplaceAll(t, "https", "wss") == [t[0]] + r;
      assert q[1..] <= r;
      assert forall c :: c in q[1..] ==> c in q;
      PrefixWithoutW(t[1..], q[1..]);
      assert q == [t[0]] + q[1..];
    } else if |q| > 0 && |t| > 0 {
      RewriteStartsWithW(t, q);
      assert false;
    }
  }

  /** Where the original starts with "https", the rewritten string, and so any non-empty prefix of it, starts with 'w'. */
  lemma RewriteStartsWithW(t: string, q: string)
    requires OccursAt(t, "https", 0)
    requires 0 < |q| && q <= ReplaceAll(t, "https", "wss")
    ensures q[0] == 'w'
  {
  }

  /** Putting "wss" in front of a string without "https" forms none. */
  lemma NoHttpsAfterWss(rest: string)
    requires !Occurs(rest, "https")
    ensures !Occurs("wss" + rest, "https")
  {
    var r := "wss" + rest;
    forall i: nat ensures !OccursAt(r, "https", i) {
      if i < 3 && i + 5 <= |r| {
        assert r[i..i + 5][0] == r[i] != 'h';
      } else if i + 5 <= |r| {
        assert r[i..i + 5] == rest[i - 3..i + 2];
        assert !OccursAt(rest, "https", i - 3);
      }
    }
  }

  /** Putting one character of a string that does not start with "https" in front of its rewritten rest forms no "https". */
  lemma NoHttpsAfterChar(s: string)
    requires |s| > 0 && !OccursAt(s, "https", 0)
    requires !Occurs(ReplaceAll(s[1..], "https", "wss"), "https")
    ensures !Occurs([s[0]] + ReplaceAll(s[1..], "https", "wss"), "https")
  {
    var rest := ReplaceAll(s[1..], "https", "wss");
    var r := [s[0]] + rest;
    forall i: nat ensures !OccursAt(r, "https", i) {
      if i == 0 && 5 <= |r| && r[1..5] == "ttps" {
        assert "ttps" <= rest;
        PrefixWithoutW(s[1..], "ttps");
        assert s[..5] == [s[0]] + s[1..][..4];
        assert s[0] == r[0];
      } else if 0 < i && i + 5 <= |r| {
        assert r[i..i + 5] == rest[i - 1..i + 4];
        assert !OccursAt(rest, "https", i - 1);
      }
    }
  }

  /** After the rewrite no "https" is left: every occurrence was replaced and none is formed anew. */
  lemma {:induction false} RewriteLeavesNoHttps(s: string)
    ensures !Occurs(ReplaceAll(s, "https", "wss"), "https")
    decreases |s|
  {
    if |s| == 0 {
      assert forall i: nat :: !OccursAt(s, "https", i);
    } else if OccursAt(s, "https", 0) {
      RewriteLeavesNoHttps(s[5..]);
      NoHttpsAfterWss(ReplaceAll(s[5..], "https", "wss"));
    } else {
      RewriteLeavesNoHttps(s[1..]);
      NoHttpsAfterChar(s);
    }
  }

  /** A base URL without "https" (an "http" or "ws" one, say) is used as it is. */
  lemma SocketUrlWithoutHttps(url: string, token: string)
    requires !Occurs(url, "https")
    ensures SocketUrl(url, token) == url + "/websocket?token=" + token
  {
    ReplaceAllWithoutMatch(url, "https", "wss");
  }

  /** A string with no 'h' early enough to start an occurrence holds no "https". */
  lemma NoHttpsWithoutH(s: string)
    requires forall i :: 0 <= i && i + 5 <= |s| ==> s[i] != 'h'
    ensures !Occurs(s, "https")
  {
    forall i: nat ensures !OccursAt(s, "https", i) {
      if i + 5 <= |s| {
        assert s[i..i + 5][0] == s[i];
      }
    }
  }

  /** A first character that does not start "https" is kept, and the rest is rewritten the same way. */
  lemma RewriteKeepsOtherFirst(s: string)
    requires |s| > 0 && !OccursAt(s, "https", 0)
    ensures ReplaceAll(s, "https", "wss") == [s[0]] + ReplaceAll(s[1..], "https", "wss")
  {}

  /** A leading "https" becomes "wss" and the rest is rewritten on its own. */
  lemma RewriteLeadingHttps(url: string)
    requires OccursAt(url, "https", 0)
    ensures ReplaceAll(url, "https", "wss") == "wss" + ReplaceAll(url[5..], "https", "wss")
  {
  }

  /** "https://host" with token "abc" gives "wss://host/websocket?token=abc". */
  lemma SocketUrlHttpsExample(url: string, token: string)
    requires url == "https://host" && token == "abc"
    ensures SocketUrl(url, token) == "wss://host/websocket?token=abc"
  {
    assert url[5..] == "://host";
    HostUnchanged(url[5..]);
    HttpsHostStartsWithHttps(url);
    RewriteLeadingHttps(url);
  }

  lemma HttpsHostStartsWithHttps(url: string)
    requires url == "https://host"
    ensures OccursAt(url, "https", 0)
  {
  }

  lemma HostUnchanged(rest: string)
    requires rest == "://host"
    ensures ReplaceAll(rest, "https", "wss") == rest
  {
    assert forall i :: 0 <= i && i + 5 <= |rest| ==> rest[i] != 'h';
    NoHttpsWithoutH(rest);
    ReplaceAllWithoutMatch(rest, "https", "wss");
  }

  /** "http://host" keeps its scheme: "http://host/websocket?token=abc". */
  lemma SocketUrlHttpExample(url: string, token: string)
    requires url == "http://host" && token == "abc"
    ensures SocketUrl(url, token) == "http://host/websocket?token=abc"
  {
    HttpHostHasNoHttps(url);
    ReplaceAllWithoutMatch(url, "https", "wss");
  }

  lemma HttpHostHasNoHttps(url: string)
    requires url == "http://host"
    ensures !Occurs(url, "https")
  {
    forall i: nat ensures !OccursAt(url, "https", i) {
      if i + 5 <= |url| {
        HttpHostWindow(url, i);
      }
    }
  }

  lemma HttpHostWindow(url: string, i: nat)
    requires url == "http://host" && i + 5 <= |url|
    ensures url[i..i + 5] != "https"
  {
    if i == 0 {
      assert url[i..i + 5][4] == url[4] == ':';
    } else {
      assert url[i..i + 5][0] == url[i] != 'h';
    }
  }

  // ---------------------------------------------------------- outbound messages

  /** What `endCall()` sends. */
  function HangupMessage(): Dict {
    map["event" := Str("hangup")]
  }

  /** What `sendDTMF(digit:)` sends. */
  function DtmfMessage(digit: string): Dict {
    map["event" := Str("dtmf"), "dtmf" := Object(map["digit" := Str(digit)])]
  }

  /** What the offer completion in `socketDidChange` sends. */
  function CallMessage(description: SessionDescription): Dict {
    map["event" := Str("call"),
        "call" := Object(map["sdp" := Object(map["sdp" := Str(description.sdp),
                                                 "type" := Str(RtcClient.StringifySdpType(description.sdpType))])])]
  }

  /** What `rtcClient(didDiscover:)` sends for a local candidate; a missing sdpMid goes out as "0". */
  function CandidateMessage(candidate: IceCandidate): Dict {
    map["event" := Str("candidate"),
        "candidate" := Object(map["candidate" := Str(candidate.sdp),
                                  "sdpMid" := Str(candidate.sdpMid.GetOr("0")),
                                  "sdpMLineIndex" := Number(candidate.sdpMLineIndex as int as real)])]
  }

  // ----------------------------------------------------------- inbound messages

  /** What `socketDidRecieve(data:)` makes of a dictionary. */
  datatype Inbound = RemoteAnswer(sdp: string) | RemoteCandidate(candidate: IceCandidate) | RemoteHangup | Ignored

  /** The as-written decoder can also stop the process: `Int32(_:)` traps on an index out of range. */
  datatype Decoding = Decoded(inbound: Inbound) | Trapped

  predicate InInt32Range(x: int) {
    -0x8000_0000 <= x < 0x8000_0000
  }

  /** The answer's SDP, when the dictionary has `answer.sdp.sdp` as a string. */
  function AnswerSdp(data: Dict): Option<string> {
    match ObjectField(data, "answer")
    case None => None
    case Some(answer) =>
      match ObjectField(answer, "sdp")
      case None => None
      case Some(sdpData) => StringField(sdpData, "sdp")
  }

  /** `socketDidRecieve(data:)` as written, including the trap of `Int32(LineIndex)`. */
  function DecodeAsWritten(data: Dict): Decoding {
    var event := StringField(data, "event");
    if event == Some("answer") then
      match AnswerSdp(data)
      case None => Decoded(Ignored)
      case Some(sdp) => Decoded(RemoteAnswer(sdp))
    else if event == Some("candidate") then
      match ObjectField(data, "candidate")
      case None => Decoded(Ignored)
      case Some(candidateData) =>
        var sdpCandidate := StringField(candidateData, "candidate").GetOr("");
        var sdpMid := StringField(candidateData, "sdpMid");
        var lineIndex := IntField(candidateData, "sdpMLineIndex").GetOr(0);
        if InInt32Range(lineIndex) then Decoded(RemoteCandidate(IceCandidate(sdpCandidate, lineIndex as int32, sdpMid)))
        else Trapped
    else if event == Some("hangup") then
      Decoded(RemoteHangup)
    else
      Decoded(Ignored)
  }

  /** The decoder the rest of the model uses: a candidate whose index does not fit in 32 bits is dropped. */
  function Decode(data: Dict): Inbound {
    var event := StringField(data, "event");
    if event == Some("answer") then
      if AnswerSdp(data).Some? then RemoteAnswer(AnswerSdp(data).value) else Ignored
    else if event == Some("candidate") then
      if ObjectField(data, "candidate").None? then Ignored
      else
        var candidateData := ObjectField(data, "candidate").value;
        var lineIndex := IntField(candidateData, "sdpMLineIndex").GetOr(0);
        if !InInt32Range(lineIndex) then Ignored
        else RemoteCandidate(IceCandidate(StringField(candidateData, "candidate").GetOr(""),
                                          lineIndex as int32,
                                          StringField(candidateData, "sdpMid")))
    else if event == Some("hangup") then RemoteHangup
    else Ignored
  }

  /** An answer is acted on exactly when `answer.sdp.sdp` is a string, and carries that string. */
  lemma DecodeAnswer(data: Dict)
    requires "event" in data && data["event"] == Str("answer")
    ensures Decode(data).RemoteAnswer? <==>
      && "answer" in data
      && data["answer"].Object? && "sdp" in data["answer"].fields
      && data["answer"].fields["sdp"].Object? && "sdp" in data["answer"].fields["sdp"].fields
      && data["answer"].fields["sdp"].fields["sdp"].Str?
    ensures Decode(data).RemoteAnswer? ==> Decode(data).sdp == data["answer"].fields["sdp"].fields["sdp"].text
    ensures !Decode(data).RemoteAnswer? ==> Decode(data) == Ignored
  {
  }

  /** A candidate event without a `candidate` dictionary is dropped. */
  lemma DecodeCandidateWithoutDictionary(data: Dict)
    requires "event" in data && data["event"] == Str("candidate")
    requires "candidate" !in data || !data["candidate"].Object?
    ensures Decode(data) == Ignored
  {
  }

  /**
   * Each field of a candidate is read on its own: a string `candidate` is
   * the SDP and anything else gives ""; a string `sdpMid` is carried and
   * anything else gives none; a missing `sdpMLineIndex`, or one that
   * `as? Int` rejects, gives 0, a boolean gives 0 or 1, and a whole number
   * is taken as it is. The candidate is applied exactly when that index fits
   * in 32 bits.
   */
  lemma DecodeCandidateFields(data: Dict, candidateData: Dict)
    requires "event" in data && data["event"] == Str("candidate")
    requires "candidate" in data && data["candidate"] == Object(candidateData)
    ensures Decode(data).RemoteCandidate? <==> InInt32Range(IntField(candidateData, "sdpMLineIndex").GetOr(0))
    ensures !Decode(data).RemoteCandidate? ==> Decode(data) == Ignored
    ensures "sdpMLineIndex" !in candidateData ==>
      Decode(data).RemoteCandidate? && Decode(data).candidate.sdpMLineIndex == 0
    ensures Decode(data).RemoteCandidate? ==>
      var candidate := Decode(data).candidate;
      && (if "candidate" in candidateData && candidateData["candidate"].Str?
          then candidate.sdp == candidateData["candidate"].text else candidate.sdp == "")
      && (if "sdpMid" in candidateData && candidateData["sdpMid"].Str?
          then candidate.sdpMid == Some(candidateData["sdpMid"].text) else candidate.sdpMid.None?)
      && ("sdpMLineIndex" in candidateData && candidateData["sdpMLineIndex"].Number? ==>
            var r := candidateData["sdpMLineIndex"].value;
            if r == r.Floor as real && InInt64Range(r.Floor) then candidate.sdpMLineIndex as real == r
            else candidate.sdpMLineIndex == 0)
      && ("sdpMLineIndex" in candidateData && candidateData["sdpMLineIndex"].Bool? ==>
            candidate.sdpMLineIndex == (if candidateData["sdpMLineIndex"].flag then 1 else 0))
      && ("sdpMLineIndex" in candidateData && !candidateData["sdpMLineIndex"].Number? && !candidateData["sdpMLineIndex"].Bool? ==>
            candidate.sdpMLineIndex == 0)
  {
  }

  /** A hangup event is a hangup whatever else the dictionary holds. */
  lemma DecodeHangup(data: Dict)
    requires "event" in data && data["event"] == Str("hangup")
    ensures Decode(data) == RemoteHangup
  {
  }

  /** Any other event, or no string event at all, is ignored. */
  lemma DecodeOtherEvent(data: Dict)
    requires "event" !in data || !data["event"].Str? || data["event"].text !in {"answer", "candidate", "hangup"}
    ensures Decode(data) == Ignored
  {
  }

  /**
   * Decoding what `rtcClient(didDiscover:)` sends gives the candidate back,
   * except that a missing sdpMid comes back as "0".
   */
  lemma CandidateRoundTrip(candidate: IceCandidate)
    ensures Decode(CandidateMessage(candidate)) == RemoteCandidate(candidate.(sdpMid := Some(candidate.sdpMid.GetOr("0"))))
    ensures candidate.sdpMid.Some? ==> Decode(CandidateMessage(candidate)) == RemoteCandidate(candidate)
  {
    var data := CandidateMessage(candidate);
    assert StringField(data, "event") == Some("candidate");
    var candidateData := ObjectField(data, "candidate").value;
    assert IntField(candidateData, "sdpMLineIndex") == Some(candidate.sdpMLineIndex as int);
  }

  /** Of the controller's own messages, only a hangup would be acted on if it came back. */
  lemma OutboundMessagesDecode(digit: string, description: SessionDescription)
    ensures Decode(HangupMessage()) == RemoteHangup
    ensures Decode(DtmfMessage(digit)) == Ignored
    ensures Decode(CallMessage(description)) == Ignored
  {
    assert StringField(DtmfMessage(digit), "event") == Some("dtmf");
    assert StringField(CallMessage(description), "event") == Some("call");
  }

  /** As written: a candidate whose sdpMLineIndex is 2^31 stops the process in `Int32(LineIndex)`. */
  lemma LineIndexOverflowTraps()
    ensures DecodeAsWritten(map["event" := Str("candidate"),
                                "candidate" := Object(map["sdpMLineIndex" := Number(2147483648.0)])]) == Trapped
  {
    var data := map["event" := Str("candidate"), "candidate" := Object(map["sdpMLineIndex" := Number(2147483648.0)])];
    assert StringField(data, "event") == Some("candidate");
  }

  /**
   * A line index of 2^64 is beyond what `as? Int` accepts, so it reads as
   * the default 0 and the candidate is applied, by the code as written too.
   */
  lemma LineIndexBeyond64BitsDefaults()
    ensures var data := map["event" := Str("candidate"),
                            "candidate" := Object(map["sdpMLineIndex" := Number(18446744073709551616.0)])];
      && DecodeAsWritten(data) == Decoded(RemoteCandidate(IceCandidate("", 0, None)))
      && Decode(data) == RemoteCandidate(IceCandidate("", 0, None))
  {
    var data := map["event" := Str("candidate"), "candidate" := Object(map["sdpMLineIndex" := Number(18446744073709551616.0)])];
    assert StringField(data, "event") == Some("candidate");
  }

  /**
   * The corrected decoder never stops: it drops exactly the messages on which
   * the as-written one traps and agrees with it on every other message.
   */
  lemma DecodeAgreesWhereNoTrap(data: Dict)
    ensures DecodeAsWritten(data).Decoded? ==> Decode(data) == DecodeAsWritten(data).inbound
    ensures DecodeAsWritten(data).Trapped? ==> Decode(data) == Ignored
  {
  }
}
