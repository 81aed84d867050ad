/** What a reader of captured flows sees: every header under its own name, the path, the side. */
module CaptureHeaders {
  import opened Common
  import opened Framing
  import opened PeerPresent
  import opened Text
  import opened FrameNames
  import opened Capture
  import opened CaptureTheorems

  /** A sent packet shows its destination, a received one its source; both show the packet's length and class. */
  lemma PacketShows(lib: Library, key: Bytes, packet: Bytes)
    requires |key| == 32
    ensures var (send, recv) := (DecodeFrame(lib, SEND_PACKET, key + packet), DecodeFrame(lib, RECV_PACKET,
        key + packet));
      var rest := [Header("X-Derp-Packet-Len", Decimal(|packet|)),
                   Header("X-Derp-Disco", if lib.isDisco(packet) then "true" else "false")];
      && send.headers == [Header("X-Derp-Dst-Key", KeyText(key))] + rest && send.bodyRaw == Some(packet)
      && recv.headers == [Header("X-Derp-Src-Key", KeyText(key))] + rest && recv.bodyRaw == Some(packet)
  {
    hide KeyText, Decimal, EncodePayload;
    assert (key + packet)[..32] == key && (key + packet)[32..] == packet;
  }

  /** A forwarded packet shows both ends, source first. */
  lemma ForwardShows(lib: Library, src: Bytes, dst: Bytes, packet: Bytes)
    requires |src| == |dst| == 32
    ensures var f := DecodeFrame(lib, FORWARD_PACKET, src + dst + packet);
      && f.bodyRaw == Some(packet)
      && f.headers == [
           Header("X-Derp-Src-Key", KeyText(src)), Header("X-Derp-Dst-Key", KeyText(dst)),
           Header("X-Derp-Packet-Len", Decimal(|packet|)),
           Header("X-Derp-Disco", if lib.isDisco(packet) then "true" else "false")]
  {
    hide KeyText, Decimal, PacketMetaHeaders, DecodeFrame;
    var payload := src + dst + packet;
    assert payload[..32] == src && payload[32..64] == dst && payload[64..] == packet;
    ForwardDecodes(lib, payload);
    MetaIs(lib, packet);
  }

  lemma ForwardDecodes(lib: Library, payload: Bytes)
    requires |payload| >= 64
    ensures var f := DecodeFrame(lib, FORWARD_PACKET, payload);
      && f.bodyRaw == Some(payload[64..])
      && f.headers == [Header(SRC_KEY, KeyText(payload[..32])), Header(DST_KEY, KeyText(payload[32..64]))]
                      + PacketMetaHeaders(lib, payload[64..])
  {
    hide KeyText, PacketMetaHeaders, PresentHeaders, Uint32, Encode64;
  }

  lemma MetaIs(lib: Library, packet: Bytes)
    ensures PacketMetaHeaders(lib, packet) ==
      [Header("X-Derp-Packet-Len", Decimal(|packet|)),
       Header("X-Derp-Disco", if lib.isDisco(packet) then "true" else "false")]
  {
  }

  /** The fields of a tail whose last byte is there, as they are shown: address and port, flags, nonempty name. */
  ghost function Derived(lib: Library, tail: Bytes): seq<Header> {
    var addr, flags := "X-Derp-Peer-Present-Addr", "X-Derp-Peer-Present-Flags";
    (if |tail| >= 18 then [Header(addr, lib.addrText(ParseTail(tail[..18]).ipPort.value))] else [])
    + (if |tail| >= 19 then [Header(flags, Decimal(tail[18]))] else [])
    + (if |tail| >= 20 && tail[19] > 0 && |tail| - 20 >= tail[19]
       then [Header("X-Derp-Peer-Present-AppName", Raw(tail[20..20 + tail[19]]))] else [])
  }

  /**
   PEER_PRESENT shows its peer and the whole tail, and of address and port, flags and nonempty name those whose last
   byte is there.
   */
  lemma PresentShows(lib: Library, key: Bytes, tail: Bytes)
    requires |key| == 32
    ensures var f := DecodeFrame(lib, PEER_PRESENT, key + tail);
      f.headers == [Header("X-Derp-Peer-Key", KeyText(key)), Header("X-Derp-Peer-Present-Tail", Encode64(tail))]
                   + Derived(lib, tail)
  {
    hide KeyText, Decimal, Encode64, PresentHeaders, ParseTail, DecodeFrame, Derived;
    assert (key + tail)[..32] == key && (key + tail)[32..] == tail;
    PresentDecodes(lib, key + tail);
    PresentAre(lib, tail);
  }

  lemma PresentDecodes(lib: Library, payload: Bytes)
    requires |payload| >= 32
    ensures DecodeFrame(lib, PEER_PRESENT, payload).headers ==
      [Header(PEER_KEY, KeyText(payload[..32])), Header(PRESENT_TAIL, Encode64(payload[32..]))]
      + PresentHeaders(lib, payload[32..])
  {
    hide KeyText, PacketMetaHeaders, PresentHeaders, Uint32, Encode64, ParseTail;
  }

  lemma PresentAre(lib: Library, tail: Bytes)
    ensures PresentHeaders(lib, tail) == Derived(lib, tail)
  {
    hide Decimal, PeerPresent.Unmap;
    if |tail| >= 18 { assert tail[..18][..16] == tail[..16]; }
  }

  /** A frame too short for its type shows its whole payload in base64, and nothing else. */
  lemma ShortShows(lib: Library, t: Byte, payload: Bytes)
    requires || (t == PEER_GONE && |payload| < 33) || (t == PEER_PRESENT && |payload| < 32)
             || (t == CLOSE_PEER && |payload| < 32) || (t == RESTARTING && |payload| < 8)
    ensures var f := DecodeFrame(lib, t, payload);
      f.headers == [Header("X-Derp-Raw-Payload", Encode64(payload))] && f.body == [] && f.bodyRaw == None
  {
    hide DecodeFrame, Encode64;
    ShortDecodes(lib, t, payload);
  }

  lemma ShortDecodes(lib: Library, t: Byte, payload: Bytes)
    requires || (t == PEER_GONE && |payload| < 33) || (t == PEER_PRESENT && |payload| < 32)
             || (t == CLOSE_PEER && |payload| < 32) || (t == RESTARTING && |payload| < 8)
    ensures DecodeFrame(lib, t, payload) == Headed(t, [RawPayloadHeader(payload)])
  {
    hide KeyText, PacketMetaHeaders, PresentHeaders, Uint32, Encode64, Decimal, ParseTail, RawPayloadHeader;
  }

  /** A note of preference is a flag: rewritten, its payload is that flag. */
  lemma EditedHome(lib: Library, payload: Bytes, home: bool)
    ensures var m := FrameMessage(NOTE_PREFERRED, DecodeFrame(lib, NOTE_PREFERRED, payload));
      && m.headers == [Header("X-Derp-Home", if |payload| > 0 && payload[0] != 0 then "true" else "false")]
      && var edited := m.(headers := [Header("X-Derp-Home", if home then "true" else "false")]);
         ReframePayload(NOTE_PREFERRED, edited).0 == [if home then 1 else 0]
  {
    hide FrameName;
    LookupFirst(Header("X-Derp-Home", if home then "true" else "false"), [], HOME);
  }

  /** A ping or pong carries the token in its header, the captured one or an edited one. */
  lemma EditedPing(lib: Library, t: Byte, payload: Bytes, token: Bytes)
    requires t == PING || t == PONG
    ensures var m := FrameMessage(t, DecodeFrame(lib, t, payload));
      && m.headers == [Header("X-Derp-Ping-Token", Encode64(payload))]
      && ReframePayload(t, m.(headers := [Header("X-Derp-Ping-Token", Encode64(token))])).0 == token
  {
    hide FrameName, Encode64, Decode64;
    LookupFirst(Header("X-Derp-Ping-Token", Encode64(token)), [], PING_TOKEN);
    Decode64Undoes(token);
  }

  /** CLOSE_PEER with its peer rewritten names that peer. */
  lemma EditedClose(lib: Library, payload: Bytes, key: Bytes)
    requires |payload| >= 32 == |key|
    ensures var m := FrameMessage(CLOSE_PEER, DecodeFrame(lib, CLOSE_PEER, payload));
      && m.headers == [Header("X-Derp-Peer-Key", KeyText(payload[..32]))]
      && ReframePayload(CLOSE_PEER, m.(headers := [Header("X-Derp-Peer-Key", KeyText(key))])).0 == key
  {
    hide FrameName, KeyText, ParseKey, PreservedPayload;
    var h := Header("X-Derp-Peer-Key", KeyText(key));
    assert [h] == [h] + [];
    TypedWins(h, [], [PEER_KEY]);
    LookupFirst(h, [], PEER_KEY);
    ParseKeyUndoes(key);
  }

  /** HEALTH is its text, the captured one or an edited one. */
  lemma EditedHealth(lib: Library, payload: Bytes, text: Bytes)
    ensures var m := FrameMessage(HEALTH, DecodeFrame(lib, HEALTH, payload));
      m.headers == [] && m.body == payload && ReframePayload(HEALTH, m.(body := text)).0 == text
  {
    hide FrameName;
  }

  /** A frame of any other type is opaque: shown whole and replayed whole, whatever its headers and body become. */
  lemma OpaqueStays(lib: Library, t: Byte, payload: Bytes, headers: seq<Header>, text: Bytes)
    requires t == SERVER_KEY || KnownName(t).None?
    ensures var m := FrameMessage(t, DecodeFrame(lib, t, payload));
      && m.headers == [] && m.body == [] && m.bodyRaw == Some(payload)
      && ReframePayload(t, m.(headers := headers, body := text)).0 == payload
  {
    hide Hex2;
  }

  /**
   A packet whose key headers are gone is sent as it is; a forwarded one with one key left has zeros for the other.
   */
  lemma KeylessPacket(m: Message, packet: Bytes)
    requires m.body == [] && m.bodyRaw == Some(packet)
    ensures HeaderLookup(m.headers, "X-Derp-Dst-Key") == None ==> ReframePayload(SEND_PACKET, m).0 == packet
    ensures HeaderLookup(m.headers, "X-Derp-Src-Key") == None ==>
        && ReframePayload(RECV_PACKET, m).0 == packet
        && var dst := HeaderLookup(m.headers, "X-Derp-Dst-Key");
           ReframePayload(FORWARD_PACKET, m).0 ==
             if dst == None then packet else seq(32, i => 0) + ParseKey(dst.value) + packet
  {
    hide Unhex, Decode64, Atoi, ParseUint32;
    assert [] + packet == packet;
    NotAKey("");
  }

  /** Text that does not begin as a key does, or is not as long as one, reads as the zero key. */
  lemma NotAKey(s: string)
    requires !("nodekey:" <= s) || |s| != 72
    ensures ParseKey(s) == seq(32, i => 0)
  {
    if "nodekey:" <= s { UnhexHalves(s[8..]); }
  }

  lemma {:induction false} UnhexHalves(s: string)
    ensures Unhex(s).Some? ==> |s| == 2 * |Unhex(s).value|
    decreases |s|
  {
    hide Number;
    if |s| >= 2 { UnhexHalves(s[2..]); }
  }

  /** A header is found by its name in any case, and the first of that name counts. */
  lemma AnyCase(h: Header, rest: seq<Header>, name: string)
    ensures HeaderLookup([h] + rest, name) ==
      if ToLower(h.name) == ToLower(name) then Some(h.value) else HeaderLookup(rest, name)
  {
    LookupFirst(h, rest, name);
    if EqualFold(h.name, name) {
      assert forall i :: 0 <= i < |name| ==> ToLower(h.name)[i] == ToLower(name)[i];
    } else if ToLower(h.name) == ToLower(name) {
      forall i | 0 <= i < |name| ensures Lower(h.name[i]) == Lower(name[i]) {
        assert ToLower(h.name)[i] == ToLower(name)[i];
      }
    }
  }

  /** The path of a flow is its frame's name in lower case under /derp/. */
  lemma PathIs(t: Byte, f: Fields, i: nat)
    requires i < |FrameName(t)|
    ensures var m := FrameMessage(t, f); var c := m.verb[i];
      && m.verb == FrameName(t) && m.path[..6] == "/derp/" && |m.path| == 6 + |m.verb|
      && m.path[6 + i] == if 'A' <= c <= 'Z' then "abcdefghijklmnopqrstuvwxyz"[(c - 'A') as nat] else c
  {
    hide FrameName;
  }

  /** A frame from the client is the request of its flow and a frame from the server the response, never both. */
  lemma SideIs(parent: string, m: Message)
    ensures FlowOf(parent, ClientToServer, m) == Flow(parent, ClientToServer, Some(m), None)
    ensures FlowOf(parent, ServerToClient, m) == Flow(parent, ServerToClient, None, Some(m))
  {
  }
}
