/** What capture and replay lose, what edits reach the wire, and what capture leaves alone. */
module CaptureTheorems {
  import opened Common
  import opened Framing
  import opened PeerPresent
  import opened Text
  import opened FrameNames
  import opened Capture

  // ---- the normal form ------------------------------------------------------------------------

  /** The payloads that do not come back byte for byte. */
  predicate Lossy(t: Byte, payload: Bytes) {
    || (t == PEER_GONE && |payload| > KEY_LEN + 1)
    || (t == CLOSE_PEER && |payload| > KEY_LEN)
    || (t == RESTARTING && |payload| > 8)
    || (t == NOTE_PREFERRED && payload != [0] && payload != [1])
    || ((t == KEEP_ALIVE || t == WATCH_CONNS) && payload != [])
  }

  /** An unedited replay is byte for byte the captured frame exactly when the payload is not one of the lossy shapes. */
  lemma ReplayExactIff(lib: Library, t: Byte, payload: Bytes)
    requires !Sealed(t)
    ensures ResolveFrameType(FrameName(t)).Some? && ResolveFrameType(FrameName(t)).value.0 == t
    ensures Replay(FrameMessage(t, DecodeFrame(lib, t, payload))) == Some(Wire(t, payload)) <==> !Lossy(t, payload)
  {
    hide DecodeFrame, Replay, FrameMessage, FrameName, ResolveFrameType, PutUint32;
    CaptureReplay(lib, t, payload);
    var normal := Normal(t, payload);
    if Wire(t, normal) == Wire(t, payload) {
      SameWire(t, normal, payload);
      assert !Lossy(t, payload);
    } else {
      assert Lossy(t, payload);
    }
  }

  lemma SameWire(t: Byte, a: Bytes, b: Bytes)
    requires Wire(t, a) == Wire(t, b)
    ensures a == b
  {
    hide PutUint32;
    assert Wire(t, a)[HEADER_LEN..] == a && Wire(t, b)[HEADER_LEN..] == b;
  }

  /** Replaying what a replay sent changes nothing more. */
  lemma NormalOnce(t: Byte, payload: Bytes)
    ensures Normal(t, Normal(t, payload)) == Normal(t, payload)
    ensures !Lossy(t, Normal(t, payload))
  {
  }

  /** A payload and its normal form are captured alike. */
  lemma NormalLooksAlike(lib: Library, t: Byte, payload: Bytes)
    ensures DecodeFrame(lib, t, Normal(t, payload)) == DecodeFrame(lib, t, payload)
  {
    hide KeyText, Encode64, Decimal, PresentHeaders, PacketMetaHeaders, Uint32;
    if t == PEER_GONE && |payload| > KEY_LEN + 1 {
      assert payload[..KEY_LEN + 1][..KEY_LEN] == payload[..KEY_LEN];
    }
    if t == CLOSE_PEER && |payload| > KEY_LEN {
      assert payload[..KEY_LEN][..KEY_LEN] == payload[..KEY_LEN];
    }
    if t == RESTARTING && |payload| > 8 {
      assert payload[..8][..4] == payload[..4] && payload[..8][4..8] == payload[4..8];
    }
  }

  /** Two payloads look the same on a captured flow exactly when they share a normal form: that is all capture loses. */
  lemma AlikeIffSameNormal(lib: Library, t: Byte, a: Bytes, b: Bytes)
    requires !Sealed(t)
    ensures FrameMessage(t, DecodeFrame(lib, t, a)) == FrameMessage(t, DecodeFrame(lib, t, b)) <==>
        Normal(t, a) == Normal(t, b)
  {
    hide DecodeFrame, Normal, Replay, FrameName, ResolveFrameType, PutUint32;
    CaptureReplay(lib, t, a);
    CaptureReplay(lib, t, b);
    NormalLooksAlike(lib, t, a);
    NormalLooksAlike(lib, t, b);
    if FrameMessage(t, DecodeFrame(lib, t, a)) == FrameMessage(t, DecodeFrame(lib, t, b)) {
      SameWire(t, Normal(t, a), Normal(t, b));
    }
  }

  // ---- edits --------------------------------------------------------------------------------------

  /** A packet replayed with its key header rewritten and, if nonempty, its body replaced: that key, that packet. */
  lemma EditedPacket(lib: Library, t: Byte, payload: Bytes, key: Bytes, body: Bytes)
    requires (t == SEND_PACKET || t == RECV_PACKET) && |payload| >= KEY_LEN == |key|
    ensures var m := FrameMessage(t, DecodeFrame(lib, t, payload));
      var name := if t == SEND_PACKET then "X-Derp-Dst-Key" else "X-Derp-Src-Key";
      && |m.headers| > 0 && m.headers[0].name == name
      && var edited := m.(headers := m.headers[0 := Header(name, KeyText(key))], body := body);
         ReframePayload(t, edited).0 == key + if body != [] then body else payload[KEY_LEN..]
  {
    hide KeyText, ParseKey, PacketMetaHeaders, FrameName;
    var m := FrameMessage(t, DecodeFrame(lib, t, payload));
    var h, rest := Header(KeyHeader(t), KeyText(key)), PacketMetaHeaders(lib, payload[KEY_LEN..]);
    assert m.headers[0 := h] == [h] + rest;
    LookupFirst(h, rest, KeyHeader(t));
    ParseKeyUndoes(key);
  }

  /** A forwarded packet with both keys and perhaps its body rewritten: new source, new destination, that packet. */
  lemma EditedForward(lib: Library, payload: Bytes, src: Bytes, dst: Bytes, body: Bytes)
    requires |payload| >= 2 * KEY_LEN && |src| == KEY_LEN == |dst|
    ensures var m := FrameMessage(FORWARD_PACKET, DecodeFrame(lib, FORWARD_PACKET, payload));
      && |m.headers| >= 2 && m.headers[0].name == "X-Derp-Src-Key" && m.headers[1].name == "X-Derp-Dst-Key"
      && var edited := m.(headers := Retitled(m.headers, KeyText(src), KeyText(dst)), body := body);
         ReframePayload(FORWARD_PACKET, edited).0 == src + dst + if body != [] then body else payload[2 * KEY_LEN..]
  {
    hide KeyText, ParseKey, PacketMetaHeaders, FrameName;
    var m := FrameMessage(FORWARD_PACKET, DecodeFrame(lib, FORWARD_PACKET, payload));
    var h, h2 := Header(SRC_KEY, KeyText(src)), Header(DST_KEY, KeyText(dst));
    var rest := PacketMetaHeaders(lib, payload[2 * KEY_LEN..]);
    assert Retitled(m.headers, KeyText(src), KeyText(dst)) == [h] + ([h2] + rest) == [h, h2] + rest;
    SrcIsNotDst();
    LookupFirst(h, [h2] + rest, SRC_KEY);
    LookupSecond(h, h2, rest, DST_KEY);
    ParseKeyUndoes(src);
    ParseKeyUndoes(dst);
  }

  /** The first two headers with other values. */
  function Retitled(headers: seq<Header>, v0: string, v1: string): seq<Header>
    requires |headers| >= 2
  {
    headers[0 := headers[0].(value := v0)][1 := headers[1].(value := v1)]
  }

  /** PEER_GONE with its peer and reason rewritten says that peer and that reason. */
  lemma EditedGone(lib: Library, payload: Bytes, key: Bytes, reason: Byte)
    requires |payload| > KEY_LEN == |key|
    ensures var m := FrameMessage(PEER_GONE, DecodeFrame(lib, PEER_GONE, payload));
      && |m.headers| >= 2 && m.headers[0].name == "X-Derp-Peer-Key" && m.headers[1].name == "X-Derp-Peer-Gone-Reason"
      && ReframePayload(PEER_GONE, m.(headers := Retitled(m.headers, KeyText(key), Decimal(reason)))).0
         == key + [reason]
  {
    hide KeyText, Decimal, FrameName, EncodePayload;
    var m := FrameMessage(PEER_GONE, DecodeFrame(lib, PEER_GONE, payload));
    var h, h2 := Header(PEER_KEY, KeyText(key)), Header(GONE_REASON, Decimal(reason));
    assert Retitled(m.headers, KeyText(key), Decimal(reason)) == [h, h2];
    GoneEncodes(key, reason);
  }

  /**
   PEER_PRESENT with its peer and tail rewritten carries that peer and that tail; the derived headers do not matter.
   */
  lemma EditedPresent(lib: Library, payload: Bytes, key: Bytes, tail: Bytes)
    requires |payload| >= KEY_LEN == |key|
    ensures var m := FrameMessage(PEER_PRESENT, DecodeFrame(lib, PEER_PRESENT, payload));
      && |m.headers| >= 2 && m.headers[0].name == "X-Derp-Peer-Key" && m.headers[1].name == "X-Derp-Peer-Present-Tail"
      && ReframePayload(PEER_PRESENT, m.(headers := Retitled(m.headers, KeyText(key), Encode64(tail)))).0 == key + tail
  {
    hide KeyText, ParseKey, Encode64, Decode64, PresentHeaders, PreservedPayload, FrameName;
    var m := FrameMessage(PEER_PRESENT, DecodeFrame(lib, PEER_PRESENT, payload));
    var h, h2 := Header(PEER_KEY, KeyText(key)), Header(PRESENT_TAIL, Encode64(tail));
    var rest := PresentHeaders(lib, payload[KEY_LEN..]);
    assert Retitled(m.headers, KeyText(key), Encode64(tail)) == [h] + ([h2] + rest) == [h, h2] + rest;
    TypedWins(h, [h2] + rest, [PEER_KEY]);
    LookupFirst(h, [h2] + rest, PEER_KEY);
    LookupSecond(h, h2, rest, PRESENT_TAIL);
    ParseKeyUndoes(key);
    Decode64Undoes(tail);
  }

  /** RESTARTING with both times rewritten carries them, in that order. */
  lemma EditedRestarting(lib: Library, payload: Bytes, reconnect: nat, tryFor: nat)
    requires |payload| >= 8 && reconnect <= MAX_UINT32 && tryFor <= MAX_UINT32
    ensures var m := FrameMessage(RESTARTING, DecodeFrame(lib, RESTARTING, payload));
      && |m.headers| >= 2 && m.headers[0].name == "X-Derp-Reconnect-Ms" && m.headers[1].name == "X-Derp-Try-For-Ms"
      && ReframePayload(RESTARTING, m.(headers := Retitled(m.headers, Decimal(reconnect), Decimal(tryFor)))).0
         == PutUint32(reconnect) + PutUint32(tryFor)
  {
    hide Decimal, ParseUint32, PutUint32, Uint32, PreservedPayload, FrameName;
    var m := FrameMessage(RESTARTING, DecodeFrame(lib, RESTARTING, payload));
    var h, h2 := Header(RECONNECT_MS, Decimal(reconnect)), Header(TRY_FOR_MS, Decimal(tryFor));
    assert Retitled(m.headers, Decimal(reconnect), Decimal(tryFor)) == [h] + [h2] == [h, h2] + [];
    TypedWins(h, [h2], [RECONNECT_MS, TRY_FOR_MS]);
    LookupFirst(h, [h2], RECONNECT_MS);
    LookupSecond(h, h2, [], TRY_FOR_MS);
    ParseUint32Undoes(reconnect);
    ParseUint32Undoes(tryFor);
  }

  /** The recorded message of a replayed packet replays to the very bytes that were sent. */
  lemma RecordedAsSent(t: Byte, m: Message)
    requires !Sealed(t)
    ensures var (sent, recorded) := ReframePayload(t, m); ReframePayload(t, recorded) == (sent, recorded)
  {
    hide EncodePayload;
  }

  // ---- captureFrame -----------------------------------------------------------------------------------

  datatype Direction = ClientToServer | ServerToClient

  /** The pushed body rules; None says that none fired. */
  type Rules = (Direction, Bytes) -> Option<Bytes>

  /** A child flow of the tunnel envelope; the message sits on the side of its direction. */
  datatype Flow = Flow(parent: string, dir: Direction, request: Option<Message>, response: Option<Message>)

  function FlowOf(parent: string, dir: Direction, m: Message): Flow {
    if dir == ServerToClient then Flow(parent, dir, None, Some(m)) else Flow(parent, dir, Some(m), None)
  }

  /** The rewritten body, when a rule fires on a frame that has a text body. */
  function Rewritten(lib: Library, rules: Rules, dir: Direction, t: Byte, payload: Bytes): Option<Bytes> {
    var f := DecodeFrame(lib, t, payload);
    if f.bodyRaw.Some? || f.body == [] then None else rules(dir, f.body)
  }

  /** The payload forwarded and the message recorded for it. */
  function Passed(lib: Library, rules: Rules, dir: Direction, t: Byte, payload: Bytes): (Bytes, Message) {
    var f, body := DecodeFrame(lib, t, payload), Rewritten(lib, rules, dir, t, payload);
    if body.None? then (payload, FrameMessage(t, f))
    else (EncodePayload(f.(body := body.value)), FrameMessage(t, f.(body := body.value)))
  }

  /** The core as capture sees it: a log of flows that may refuse an entry, and the pushed rules. */
  class Core {
    var flows: seq<Flow>
    const lib: Library
    const rules: Rules

    constructor (lib: Library, rules: Rules)
      ensures flows == [] && this.lib == lib && this.rules == rules
    {
      flows := [];
      this.lib, this.rules := lib, rules;
    }

    method PushFlow(f: Flow, up: bool) returns (ok: bool)
      modifies this
      ensures ok == up && flows == if up then old(flows) + [f] else old(flows)
    {
      ok := up;
      if up {
        flows := flows + [f];
      }
    }

    /** Records one frame and returns the bytes to forward; None is an error, with nothing recorded. */
    method CaptureFrame(parent: string, frame: Bytes, dir: Direction, up: bool) returns (out: Option<Bytes>)
      modifies this
      ensures |frame| < HEADER_LEN || !up ==> out == None && flows == old(flows)
      ensures |frame| >= HEADER_LEN && up ==>
        var (payload, m) := Passed(lib, rules, dir, frame[0], FramePayload(frame));
        && flows == old(flows) + [FlowOf(parent, dir, m)]
        && var same := Rewritten(lib, rules, dir, frame[0], FramePayload(frame)).None?;
           out == Some(if same then frame else Wire(frame[0], payload))
    {
      hide DecodeFrame, EncodePayload, FrameMessage, Uint32;
      if FrameHeader(frame).None? {
        return None;
      }
      var t := frame[0];
      var f := DecodeFrame(lib, t, FramePayload(frame));
      if f.bodyRaw.Some? || f.body == [] {
        var ok := PushFlow(FlowOf(parent, dir, FrameMessage(t, f)), up);
        return if ok then Some(frame) else None;
      }
      var body := rules(dir, f.body);
      if body.None? {
        var ok := PushFlow(FlowOf(parent, dir, FrameMessage(t, f)), up);
        return if ok then Some(frame) else None;
      }
      var mutated := f.(body := body.value);
      var ok := PushFlow(FlowOf(parent, dir, FrameMessage(t, mutated)), up);
      if !ok {
        return None;
      }
      var wire := EncodeFrame(t, EncodePayload(mutated));
      return Some(wire[..]);
    }
  }

  /** Capture alters nothing but a nonempty health text that a rule rewrites: packets pass on both legs as they are. */
  lemma OnlyHealthChanges(lib: Library, rules: Rules, dir: Direction, t: Byte, payload: Bytes)
    ensures Passed(lib, rules, dir, t, payload).0 ==
      if t == HEALTH && payload != [] && rules(dir, payload).Some? then rules(dir, payload).value else payload
  {
    hide KeyText, Encode64, Decimal, PresentHeaders, PacketMetaHeaders, Uint32, FrameMessage;
  }

  /** What capture records is what it forwards: replaying the record sends the normal form of the forwarded payload. */
  lemma RecordMatchesForward(lib: Library, rules: Rules, dir: Direction, t: Byte, payload: Bytes)
    requires !Sealed(t)
    ensures ResolveFrameType(FrameName(t)).Some? && ResolveFrameType(FrameName(t)).value.0 == t
    ensures var (forwarded, m) := Passed(lib, rules, dir, t, payload);
      m.verb == FrameName(t) && Replay(m) == Some(Wire(t, Normal(t, forwarded)))
  {
    hide FrameName, ResolveFrameType, Replay;
    OnlyHealthChanges(lib, rules, dir, t, payload);
    CaptureReplay(lib, t, Passed(lib, rules, dir, t, payload).0);
    PassedMessage(lib, rules, dir, t, payload);
  }

  /** The recorded message is the plain capture of the forwarded payload. */
  lemma PassedMessage(lib: Library, rules: Rules, dir: Direction, t: Byte, payload: Bytes)
    ensures var (forwarded, m) := Passed(lib, rules, dir, t, payload);
      m == FrameMessage(t, DecodeFrame(lib, t, forwarded))
  {
    hide KeyText, Encode64, Decimal, PresentHeaders, PacketMetaHeaders, Uint32, FrameName, ToLower;
  }
}
