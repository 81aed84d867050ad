/** What captured flows say of packets is what the relay does with them. */
module RelayCapture {
  import opened Common
  import opened FrameNames
  import opened Text
  import opened Capture
  import opened CaptureTheorems
  import opened CaptureHeaders
  import opened Relay
  import opened RelaySteps
  import opened RelayTheorems
  import RelayLog

  /** A packet is written only to a connection of its destination, unchanged and under its sender's key. */
  lemma WrittenToDestination(r: Registry, src: Cid, dst: NodeKey, packet: Bytes, disco: bool, o: Out)
    requires RegistryOk(r) && Listed(r, src) && |dst| == 32
    requires o in Route(r, src, dst + packet, disco).0 && o.RecvPacket?
    ensures o.to in r.clients && r.clients[o.to].key == dst && o.from == r.clients[src].key && o.packet == packet
  {
    hide RegistryOk, NoteActivity, Receiver, Records;
    assert (dst + packet)[..32] == dst && (dst + packet)[32..] == packet;
    NoteKeeps(r, src);
    NoteKeys(r, src);
    ReceiverIsEnabled(NoteActivity(r, src), dst);
  }

  lemma NoteKeys(r: Registry, src: Cid)
    ensures var r' := NoteActivity(r, src);
      r'.clients.Keys == r.clients.Keys && forall d :: d in r.clients ==> r'.clients[d].key == r.clients[d].key
  {
  }

  lemma PacketKeys(lib: Library, key: Bytes, packet: Bytes)
    requires |key| == 32
    ensures var (send, recv) :=
        (DecodeFrame(lib, SEND_PACKET, key + packet), DecodeFrame(lib, RECV_PACKET, key + packet));
      && send.bodyRaw == recv.bodyRaw == Some(packet)
      && HeaderLookup(send.headers, "X-Derp-Dst-Key") == Some(KeyText(key))
      && HeaderLookup(send.headers, "X-Derp-Src-Key") == None
      && HeaderLookup(recv.headers, "X-Derp-Src-Key") == Some(KeyText(key))
      && HeaderLookup(recv.headers, "X-Derp-Dst-Key") == None
  {
    hide DecodeFrame, KeyText, Decimal;
    PacketShows(lib, key, packet);
    SrcIsNotDst();
    OneKeyHeader("X-Derp-Dst-Key", "X-Derp-Src-Key", KeyText(key), lib, packet);
    OneKeyHeader("X-Derp-Src-Key", "X-Derp-Dst-Key", KeyText(key), lib, packet);
  }

  lemma OneKeyHeader(name: string, other: string, value: string, lib: Library, packet: Bytes)
    requires |name| == |other| == 14 && !EqualFold(name, other)
    ensures var headers := [Header(name, value)] + PacketMetaHeaders(lib, packet);
      HeaderLookup(headers, name) == Some(value) && HeaderLookup(headers, other) == None
  {
    hide Decimal;
    var meta := PacketMetaHeaders(lib, packet);
    LookupFirst(Header(name, value), meta, name);
    LookupFirst(Header(name, value), meta, other);
    assert meta == [meta[0]] + [meta[1]];
    LookupFirst(meta[0], [meta[1]], other);
    LookupFirst(meta[1], [], other);
  }

  /**
   In every run, the captured SEND_PACKET names under X-Derp-Dst-Key the key of the connection its packet is written to,
   and the RECV_PACKET written there names the sender's own key under X-Derp-Src-Key; both show the same packet.
   */
  lemma FlowsTellTheRoute(
      lib: Library, fighters: bool, events: seq<RelayLog.Event>, src: Cid, dst: NodeKey, packet: Bytes, disco: bool,
      o: Out)
    requires var r := RelayLog.Run(fighters, events).r;
      && Listed(r, src) && |r.clients[src].key| == 32 == |dst|
      && o in Route(r, src, dst + packet, disco).0 && o.RecvPacket?
    ensures var r := RelayLog.Run(fighters, events).r;
      var (sent, received) :=
        (DecodeFrame(lib, SEND_PACKET, dst + packet), DecodeFrame(lib, RECV_PACKET, o.from + o.packet));
      && o.to in r.clients
      && HeaderLookup(sent.headers, "X-Derp-Dst-Key") == Some(KeyText(r.clients[o.to].key))
      && HeaderLookup(sent.headers, "X-Derp-Src-Key") == None
      && HeaderLookup(received.headers, "X-Derp-Src-Key") == Some(KeyText(r.clients[src].key))
      && HeaderLookup(received.headers, "X-Derp-Dst-Key") == None
      && sent.bodyRaw == received.bodyRaw == Some(packet)
  {
    hide Route, RegistryOk, DecodeFrame, HeaderLookup, KeyText, RelayLog.Run;
    RunOk(fighters, events);
    WrittenToDestination(RelayLog.Run(fighters, events).r, src, dst, packet, disco, o);
    PacketKeys(lib, dst, packet);
    PacketKeys(lib, RelayLog.Run(fighters, events).r.clients[src].key, packet);
  }

  /**
   A captured SEND_PACKET replayed with another X-Derp-Dst-Key goes to that key: in every run, whatever connection its
   packet is written to is one of the new key.
   */
  lemma EditRedirects(
      lib: Library, fighters: bool, events: seq<RelayLog.Event>, src: Cid, payload: Bytes, dst: NodeKey, disco: bool)
    requires Listed(RelayLog.Run(fighters, events).r, src) && |payload| >= 32 == |dst|
    ensures var r := RelayLog.Run(fighters, events).r;
      var m := FrameMessage(SEND_PACKET, DecodeFrame(lib, SEND_PACKET, payload));
      && |m.headers| > 0
      && var edited := m.(headers := m.headers[0 := Header("X-Derp-Dst-Key", KeyText(dst))]);
         forall o :: o in Route(r, src, ReframePayload(SEND_PACKET, edited).0, disco).0 && o.RecvPacket? ==>
           o.to in r.clients && r.clients[o.to].key == dst && o.packet == payload[32..]
  {
    hide Route, RegistryOk, DecodeFrame, FrameMessage, ReframePayload, RelayLog.Run;
    RunOk(fighters, events);
    var r := RelayLog.Run(fighters, events).r;
    EditedPacket(lib, SEND_PACKET, payload, dst, []);
    NoBody(lib, payload);
    forall o | o in Route(r, src, dst + payload[32..], disco).0 && o.RecvPacket?
      ensures o.to in r.clients && r.clients[o.to].key == dst && o.packet == payload[32..]
    {
      WrittenToDestination(r, src, dst, payload[32..], disco, o);
    }
  }

  lemma NoBody(lib: Library, payload: Bytes)
    requires |payload| >= 32
    ensures FrameMessage(SEND_PACKET, DecodeFrame(lib, SEND_PACKET, payload)).body == []
  {
    hide KeyText, PacketMetaHeaders, FrameName;
  }
}
