/**
 Capture and replay of DERP frames (sidescale/derp/capture.go and replay.go): a payload is decoded into headers
 and a body, kept as a flow message, and encoded again from that message.
 */
module Capture {
  import opened Common
  import opened Framing
  import opened PeerPresent
  import opened Text
  import opened FrameNames

  datatype Header = Header(name: string, value: string)

  /** bodyRaw is an opaque packet payload, carried with a passthrough codec. */
  datatype Message = Message(verb: string, path: string, headers: seq<Header>, body: Bytes, bodyRaw: Option<Bytes>)

  /** The decoded view of a frame; tail is the undecoded rest of a PEER_PRESENT. */
  datatype Fields = Fields(typ: Byte, headers: seq<Header>, body: Bytes, bodyRaw: Option<Bytes>, tail: Option<Bytes>)

  /** Library calls that only feed derived headers: the disco classifier and the address printer. */
  datatype Library = Library(isDisco: Bytes -> bool, addrText: AddrPort -> string)

  const SRC_KEY := "X-Derp-Src-Key"
  const DST_KEY := "X-Derp-Dst-Key"
  const PEER_KEY := "X-Derp-Peer-Key"
  const RAW_PAYLOAD := "X-Derp-Raw-Payload"
  const GONE_REASON := "X-Derp-Peer-Gone-Reason"
  const PRESENT_TAIL := "X-Derp-Peer-Present-Tail"
  const HOME := "X-Derp-Home"
  const PING_TOKEN := "X-Derp-Ping-Token"
  const RECONNECT_MS := "X-Derp-Reconnect-Ms"
  const TRY_FOR_MS := "X-Derp-Try-For-Ms"

  // ---- headers ------------------------------------------------------------------------------

  function Lower(c: char): char {
    if 'A' <= c <= 'Z' then c - 'A' + 'a' else c
  }

  function ToLower(s: string): (r: string)
    ensures |r| == |s|
  {
    seq(|s|, i requires 0 <= i < |s| => Lower(s[i]))
  }

  /** strings.EqualFold over ASCII. */
  predicate EqualFold(a: string, b: string) {
    |a| == |b| && forall i :: 0 <= i < |a| ==> Lower(a[i]) == Lower(b[i])
  }

  /** The first header of that name; an empty value is not an absence. */
  function HeaderLookup(headers: seq<Header>, name: string): Option<string> {
    if headers == [] then None
    else if EqualFold(headers[0].name, name) then Some(headers[0].value)
    else HeaderLookup(headers[1..], name)
  }

  function HeaderValue(headers: seq<Header>, name: string): string {
    var v := HeaderLookup(headers, name);
    if v.Some? then v.value else ""
  }

  /** 32 zero bytes when the header is absent. */
  function RawKey(headers: seq<Header>, name: string): Bytes {
    ParseKey(HeaderValue(headers, name))
  }

  function RawPayloadHeader(payload: Bytes): Header {
    Header(RAW_PAYLOAD, Encode64(payload))
  }

  function RawPayload(headers: seq<Header>): Option<Bytes> {
    var v := HeaderLookup(headers, RAW_PAYLOAD);
    if v.Some? then Decode64(v.value) else None
  }

  /** The raw copy of a payload whose typed headers are all absent. */
  function PreservedPayload(headers: seq<Header>, typed: seq<string>): Option<Bytes> {
    if exists name :: name in typed && HeaderLookup(headers, name).Some? then None else RawPayload(headers)
  }

  /** base64 with the error dropped. */
  function Base64Value(headers: seq<Header>, name: string): Bytes {
    var b := Decode64(HeaderValue(headers, name));
    if b.Some? then b.value else []
  }

  // ---- decode and encode ------------------------------------------------------------------------

  function Bool(b: bool): string {
    if b then "true" else "false"
  }

  function PacketMetaHeaders(lib: Library, packet: Bytes): seq<Header> {
    [Header("X-Derp-Packet-Len", Decimal(|packet|)), Header("X-Derp-Disco", Bool(lib.isDisco(packet)))]
  }

  /** A flow header value is a string of bytes. */
  function Raw(b: Bytes): string {
    seq(|b|, i requires 0 <= i < |b| => b[i] as char)
  }

  function PresentHeaders(lib: Library, tail: Bytes): seq<Header> {
    var info := ParseTail(tail);
    (if info.ipPort.Some? then [Header("X-Derp-Peer-Present-Addr", lib.addrText(info.ipPort.value))] else [])
    + (if info.flags.Some? then [Header("X-Derp-Peer-Present-Flags", Decimal(info.flags.value))] else [])
    + (if info.appName.Some? && info.appName.value != []
       then [Header("X-Derp-Peer-Present-AppName", Raw(info.appName.value))] else [])
  }

  function KeyHeader(t: Byte): string {
    if t == SEND_PACKET then DST_KEY else SRC_KEY
  }

  function Opaque(t: Byte, payload: Bytes): Fields {
    Fields(t, [], [], Some(payload), None)
  }

  function Headed(t: Byte, headers: seq<Header>): Fields {
    Fields(t, headers, [], None, None)
  }

  function DecodeFrame(lib: Library, t: Byte, payload: Bytes): Fields {
    if t == SEND_PACKET || t == RECV_PACKET then
      if |payload| < KEY_LEN then Opaque(t, payload)
      else
        var packet := payload[KEY_LEN..];
        var headers := [Header(KeyHeader(t), KeyText(payload[..KEY_LEN]))] + PacketMetaHeaders(lib, packet);
        Fields(t, headers, [], Some(packet), None)
    else if t == FORWARD_PACKET then
      if |payload| < 2 * KEY_LEN then Opaque(t, payload)
      else
        var packet := payload[2 * KEY_LEN..];
        var src, dst := KeyText(payload[..KEY_LEN]), KeyText(payload[KEY_LEN..2 * KEY_LEN]);
        var headers := [Header(SRC_KEY, src), Header(DST_KEY, dst)] + PacketMetaHeaders(lib, packet);
        Fields(t, headers, [], Some(packet), None)
    else if t == PEER_GONE then
      if |payload| < KEY_LEN + 1 then Headed(t, [RawPayloadHeader(payload)])
      else Headed(t, [Header(PEER_KEY, KeyText(payload[..KEY_LEN])), Header(GONE_REASON, Decimal(payload[KEY_LEN]))])
    else if t == PEER_PRESENT then
      if |payload| < KEY_LEN then Headed(t, [RawPayloadHeader(payload)])
      else
        var tail := payload[KEY_LEN..];
        Fields(t, [Header(PEER_KEY, KeyText(payload[..KEY_LEN])), Header(PRESENT_TAIL, Encode64(tail))]
                  + PresentHeaders(lib, tail), [], None, Some(tail))
    else if t == NOTE_PREFERRED then Headed(t, [Header(HOME, Bool(|payload| >= 1 && payload[0] != 0))])
    else if t == CLOSE_PEER then
      if |payload| < KEY_LEN then Headed(t, [RawPayloadHeader(payload)])
      else Headed(t, [Header(PEER_KEY, KeyText(payload[..KEY_LEN]))])
    else if t == PING || t == PONG then Headed(t, [Header(PING_TOKEN, Encode64(payload))])
    else if t == RESTARTING then
      if |payload| < 8 then Headed(t, [RawPayloadHeader(payload)])
      else
        var reconnect, tryFor := Decimal(Uint32(payload[..4])), Decimal(Uint32(payload[4..8]));
        Headed(t, [Header(RECONNECT_MS, reconnect), Header(TRY_FOR_MS, tryFor)])
    else if t == HEALTH then Fields(t, [], payload, None, None)
    else if t == KEEP_ALIVE || t == WATCH_CONNS then Headed(t, [])
    else Opaque(t, payload)
  }

  function Packet(f: Fields): Bytes {
    if f.bodyRaw.Some? then f.bodyRaw.value else []
  }

  function EncodePayload(f: Fields): Bytes {
    if f.typ == SEND_PACKET || f.typ == RECV_PACKET then
      (if HeaderLookup(f.headers, KeyHeader(f.typ)).None? then [] else RawKey(f.headers, KeyHeader(f.typ))) + Packet(f)
    else if f.typ == FORWARD_PACKET then
      if HeaderLookup(f.headers, SRC_KEY).None? && HeaderLookup(f.headers, DST_KEY).None? then Packet(f)
      else RawKey(f.headers, SRC_KEY) + RawKey(f.headers, DST_KEY) + Packet(f)
    else if f.typ == PEER_GONE then
      var raw := PreservedPayload(f.headers, [PEER_KEY]);
      if raw.Some? then raw.value
      else RawKey(f.headers, PEER_KEY) + [Atoi(HeaderValue(f.headers, GONE_REASON)) % 256]
    else if f.typ == PEER_PRESENT then
      var raw := PreservedPayload(f.headers, [PEER_KEY]);
      if raw.Some? then raw.value
      else RawKey(f.headers, PEER_KEY) + if f.tail.Some? then f.tail.value else Base64Value(f.headers, PRESENT_TAIL)
    else if f.typ == NOTE_PREFERRED then
      if HeaderValue(f.headers, HOME) == "true" then [1] else [0]
    else if f.typ == CLOSE_PEER then
      var raw := PreservedPayload(f.headers, [PEER_KEY]);
      if raw.Some? then raw.value else RawKey(f.headers, PEER_KEY)
    else if f.typ == PING || f.typ == PONG then Base64Value(f.headers, PING_TOKEN)
    else if f.typ == RESTARTING then
      var raw := PreservedPayload(f.headers, [RECONNECT_MS, TRY_FOR_MS]);
      if raw.Some? then raw.value
      else
        var reconnect, tryFor := HeaderValue(f.headers, RECONNECT_MS), HeaderValue(f.headers, TRY_FOR_MS);
        PutUint32(ParseUint32(reconnect)) + PutUint32(ParseUint32(tryFor))
    else if f.typ == HEALTH then f.body
    else if f.typ == KEEP_ALIVE || f.typ == WATCH_CONNS then []
    else Packet(f)
  }

  // ---- flow messages -----------------------------------------------------------------------------

  function FrameMessage(t: Byte, f: Fields): Message {
    var body := if f.bodyRaw.Some? then [] else f.body;
    Message(FrameName(t), "/derp/" + ToLower(FrameName(t)), f.headers, body, f.bodyRaw)
  }

  function FrameFromMessage(m: Message, t: Byte): Fields {
    Fields(t, m.headers, m.body, m.bodyRaw, None)
  }

  predicate IsPacket(t: Byte) {
    t == SEND_PACKET || t == RECV_PACKET || t == FORWARD_PACKET
  }

  /** Handshake frames are sealed again with held keys on replay, which is not part of this model. */
  predicate Sealed(t: Byte) {
    t == CLIENT_INFO || t == SERVER_INFO
  }

  /** reframePayload: a body mutation of a packet replaces its opaque payload, in the recorded message too. */
  function ReframePayload(t: Byte, m: Message): (Bytes, Message)
    requires !Sealed(t)
  {
    var m1 := if IsPacket(t) && m.body != [] then m.(bodyRaw := Some(m.body), body := []) else m;
    (EncodePayload(FrameFromMessage(m1, t)), m1)
  }

  /** The frame a replay of the message sends; None when its method names no frame type. */
  function Replay(m: Message): Option<Bytes>
    requires ResolveFrameType(m.verb).Some? ==> !Sealed(ResolveFrameType(m.verb).value.0)
  {
    var t := ResolveFrameType(m.verb);
    if t.None? then None else Some(Wire(t.value.0, ReframePayload(t.value.0, m).0))
  }

  // ---- round trip ---------------------------------------------------------------------------------

  /** What survives capture and replay: trailing bytes of fixed-size payloads do not. */
  function Normal(t: Byte, payload: Bytes): Bytes {
    if t == PEER_GONE && |payload| > KEY_LEN + 1 then payload[..KEY_LEN + 1]
    else if t == CLOSE_PEER && |payload| > KEY_LEN then payload[..KEY_LEN]
    else if t == RESTARTING && |payload| > 8 then payload[..8]
    else if t == NOTE_PREFERRED then [if |payload| >= 1 && payload[0] != 0 then 1 else 0]
    else if t == KEEP_ALIVE || t == WATCH_CONNS then []
    else payload
  }

  lemma LookupFirst(h: Header, rest: seq<Header>, name: string)
    ensures HeaderLookup([h] + rest, name) ==
        if EqualFold(h.name, name) then Some(h.value) else HeaderLookup(rest, name)
  {
    assert ([h] + rest)[1..] == rest;
  }

  lemma LookupSecond(h: Header, h2: Header, rest: seq<Header>, name: string)
    requires !EqualFold(h.name, name) && h2.name == name
    ensures HeaderLookup([h, h2] + rest, name) == Some(h2.value)
  {
    assert [h, h2] + rest == [h] + ([h2] + rest);
    LookupFirst(h, [h2] + rest, name);
    LookupFirst(h2, rest, name);
  }

  lemma SrcIsNotDst()
    ensures !EqualFold(SRC_KEY, DST_KEY) && !EqualFold(DST_KEY, SRC_KEY)
  {
    assert Lower(SRC_KEY[7]) == 's' && Lower(DST_KEY[7]) == 'd';
  }

  /** A payload kept raw because it was too short to decode comes back whole. */
  lemma RawRoundTrip(payload: Bytes, typed: seq<string>)
    requires forall name :: name in typed ==> |name| != |RAW_PAYLOAD|
    ensures PreservedPayload([RawPayloadHeader(payload)], typed) == Some(payload)
  {
    hide Encode64, Decode64;
    var h := RawPayloadHeader(payload);
    forall name | name in typed ensures HeaderLookup([h], name).None? {
      assert !EqualFold(h.name, name);
      LookupFirst(h, [], name);
    }
    LookupFirst(h, [], RAW_PAYLOAD);
    Decode64Undoes(payload);
  }

  /** A rebuild driven by a typed header never falls back to the raw copy. */
  lemma TypedWins(h: Header, rest: seq<Header>, typed: seq<string>)
    requires h.name in typed
    ensures PreservedPayload([h] + rest, typed).None?
  {
    LookupFirst(h, rest, h.name);
  }

  function Replayed(lib: Library, t: Byte, payload: Bytes): Bytes
    requires !Sealed(t)
  {
    ReframePayload(t, FrameMessage(t, DecodeFrame(lib, t, payload))).0
  }

  lemma PacketRoundTrip(lib: Library, t: Byte, payload: Bytes)
    requires t == SEND_PACKET || t == RECV_PACKET
    ensures Replayed(lib, t, payload) == payload
  {
    hide KeyText, ParseKey, PacketMetaHeaders;
    if |payload| >= KEY_LEN {
      var key, packet := payload[..KEY_LEN], payload[KEY_LEN..];
      LookupFirst(Header(KeyHeader(t), KeyText(key)), PacketMetaHeaders(lib, packet), KeyHeader(t));
      ParseKeyUndoes(key);
      assert key + packet == payload;
    } else {
      assert [] + payload == payload;
    }
  }

  lemma ForwardRoundTrip(lib: Library, payload: Bytes)
    ensures Replayed(lib, FORWARD_PACKET, payload) == payload
  {
    hide KeyText, ParseKey, PacketMetaHeaders;
    if |payload| >= 2 * KEY_LEN {
      var src, dst, packet := payload[..KEY_LEN], payload[KEY_LEN..2 * KEY_LEN], payload[2 * KEY_LEN..];
      var h, h2, rest := Header(SRC_KEY, KeyText(src)), Header(DST_KEY, KeyText(dst)), PacketMetaHeaders(lib, packet);
      SrcIsNotDst();
      assert [h, h2] + rest == [h] + ([h2] + rest);
      LookupFirst(h, [h2] + rest, SRC_KEY);
      LookupSecond(h, h2, rest, DST_KEY);
      ParseKeyUndoes(src);
      ParseKeyUndoes(dst);
      assert src + dst + packet == payload;
    }
  }

  lemma GoneRebuilt(f: Fields)
    requires f.typ == PEER_GONE && PreservedPayload(f.headers, [PEER_KEY]).None?
    ensures EncodePayload(f) == RawKey(f.headers, PEER_KEY) + [Atoi(HeaderValue(f.headers, GONE_REASON)) % 256]
  {
    hide RawKey, PreservedPayload, Atoi, HeaderValue, PutUint32, ParseUint32, Base64Value;
  }

  /** A typed PEER_GONE says its peer and its reason. */
  lemma GoneEncodes(key: Bytes, reason: Byte)
    requires |key| == KEY_LEN
    ensures var headers := [Header(PEER_KEY, KeyText(key)), Header(GONE_REASON, Decimal(reason))];
      EncodePayload(Headed(PEER_GONE, headers)) == key + [reason]
  {
    hide KeyText, ParseKey, Decimal, Atoi, PreservedPayload, HeaderLookup, EqualFold, EncodePayload;
    var h, h2 := Header(PEER_KEY, KeyText(key)), Header(GONE_REASON, Decimal(reason));
    assert [h, h2] == [h] + [h2] == [h, h2] + [];
    PeerGoneNames();
    TypedWins(h, [h2], [PEER_KEY]);
    LookupFirst(h, [h2], PEER_KEY);
    LookupSecond(h, h2, [], GONE_REASON);
    ParseKeyUndoes(key);
    AtoiUndoes(reason);
    GoneRebuilt(Headed(PEER_GONE, [h, h2]));
  }

  lemma PeerGoneNames()
    ensures EqualFold(PEER_KEY, PEER_KEY) && !EqualFold(PEER_KEY, GONE_REASON)
  {
  }

  lemma GoneRoundTrip(lib: Library, payload: Bytes)
    ensures Replayed(lib, PEER_GONE, payload) == Normal(PEER_GONE, payload)
  {
    hide KeyText, Decimal, PreservedPayload;
    if |payload| > KEY_LEN {
      hide EncodePayload;
      GoneEncodes(payload[..KEY_LEN], payload[KEY_LEN]);
      assert payload[..KEY_LEN] + [payload[KEY_LEN]] == payload[..KEY_LEN + 1];
    } else {
      RawRoundTrip(payload, [PEER_KEY]);
    }
  }

  lemma PresentRoundTrip(lib: Library, payload: Bytes)
    ensures Replayed(lib, PEER_PRESENT, payload) == payload
  {
    hide KeyText, ParseKey, Encode64, Decode64, PresentHeaders, PreservedPayload;
    if |payload| >= KEY_LEN {
      var key, tail := payload[..KEY_LEN], payload[KEY_LEN..];
      var h, h2 := Header(PEER_KEY, KeyText(key)), Header(PRESENT_TAIL, Encode64(tail));
      var rest := PresentHeaders(lib, tail);
      assert [h, h2] + rest == [h] + ([h2] + rest);
      TypedWins(h, [h2] + rest, [PEER_KEY]);
      LookupFirst(h, [h2] + rest, PEER_KEY);
      LookupSecond(h, h2, rest, PRESENT_TAIL);
      ParseKeyUndoes(key);
      Decode64Undoes(tail);
      assert key + tail == payload;
    } else {
      RawRoundTrip(payload, [PEER_KEY]);
    }
  }

  lemma CloseRoundTrip(lib: Library, payload: Bytes)
    ensures Replayed(lib, CLOSE_PEER, payload) == Normal(CLOSE_PEER, payload)
  {
    hide KeyText, ParseKey, PreservedPayload;
    if |payload| >= KEY_LEN {
      var h := Header(PEER_KEY, KeyText(payload[..KEY_LEN]));
      assert [h] == [h] + [];
      TypedWins(h, [], [PEER_KEY]);
      LookupFirst(h, [], PEER_KEY);
      ParseKeyUndoes(payload[..KEY_LEN]);
    } else {
      RawRoundTrip(payload, [PEER_KEY]);
    }
  }

  lemma RestartingRoundTrip(lib: Library, payload: Bytes)
    ensures Replayed(lib, RESTARTING, payload) == Normal(RESTARTING, payload)
  {
    hide Decimal, ParseUint32, PutUint32, Uint32, PreservedPayload;
    if |payload| >= 8 {
      var a, b := Uint32(payload[..4]), Uint32(payload[4..8]);
      var h, h2 := Header(RECONNECT_MS, Decimal(a)), Header(TRY_FOR_MS, Decimal(b));
      assert [h, h2] == [h] + [h2] == [h, h2] + [];
      TypedWins(h, [h2], [RECONNECT_MS, TRY_FOR_MS]);
      LookupFirst(h, [h2], RECONNECT_MS);
      LookupSecond(h, h2, [], TRY_FOR_MS);
      ParseUint32Undoes(a);
      ParseUint32Undoes(b);
      PutUint32Undoes(payload[..4]);
      PutUint32Undoes(payload[4..8]);
      assert payload[..4] + payload[4..8] == payload[..8];
    } else {
      RawRoundTrip(payload, [RECONNECT_MS, TRY_FOR_MS]);
    }
  }

  lemma FlatRoundTrip(lib: Library, t: Byte, payload: Bytes)
    requires !Sealed(t) && !IsPacket(t) && t != PEER_GONE && t != PEER_PRESENT && t != CLOSE_PEER && t != RESTARTING
    ensures Replayed(lib, t, payload) == Normal(t, payload)
  {
    hide Encode64, Decode64;
    if t == PING || t == PONG {
      LookupFirst(Header(PING_TOKEN, Encode64(payload)), [], PING_TOKEN);
      Decode64Undoes(payload);
    } else if t == NOTE_PREFERRED {
      LookupFirst(Header(HOME, Bool(|payload| >= 1 && payload[0] != 0)), [], HOME);
      assert "true"[0] != "false"[0];
    }
  }

  /** Capture then an unedited replay sends back the normal form of every frame that is not sealed. */
  lemma CaptureReplay(lib: Library, t: Byte, payload: Bytes)
    requires !Sealed(t)
    ensures ResolveFrameType(FrameName(t)).Some? && ResolveFrameType(FrameName(t)).value.0 == t
    ensures Replay(FrameMessage(t, DecodeFrame(lib, t, payload))) == Some(Wire(t, Normal(t, payload)))
  {
    hide DecodeFrame, EncodePayload, ReframePayload, ResolveFrameType, FrameName, ToLower;
    ResolveUndoesName(t);
    if t == SEND_PACKET || t == RECV_PACKET { PacketRoundTrip(lib, t, payload); }
    else if t == FORWARD_PACKET { ForwardRoundTrip(lib, payload); }
    else if t == PEER_GONE { GoneRoundTrip(lib, payload); }
    else if t == PEER_PRESENT { PresentRoundTrip(lib, payload); }
    else if t == CLOSE_PEER { CloseRoundTrip(lib, payload); }
    else if t == RESTARTING { RestartingRoundTrip(lib, payload); }
    else { FlatRoundTrip(lib, t, payload); }
  }
}
