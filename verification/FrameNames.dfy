/**
 DERP frame types, the method names they go by on flows (derpproto/codec.go), and the way back (derp/injection.go).
 */
module FrameNames {
  import opened Common
  import opened Text

  const SERVER_KEY: Byte := 0x01
  const CLIENT_INFO: Byte := 0x02
  const SERVER_INFO: Byte := 0x03
  const SEND_PACKET: Byte := 0x04
  const RECV_PACKET: Byte := 0x05
  const KEEP_ALIVE: Byte := 0x06
  const NOTE_PREFERRED: Byte := 0x07
  const PEER_GONE: Byte := 0x08
  const PEER_PRESENT: Byte := 0x09
  const FORWARD_PACKET: Byte := 0x0A
  const WATCH_CONNS: Byte := 0x10
  const CLOSE_PEER: Byte := 0x11
  const PING: Byte := 0x12
  const PONG: Byte := 0x13
  const HEALTH: Byte := 0x14
  const RESTARTING: Byte := 0x15

  function KnownName(t: Byte): Option<string> {
    if t == SERVER_KEY then Some("SERVER_KEY")
    else if t == CLIENT_INFO then Some("CLIENT_INFO")
    else if t == SERVER_INFO then Some("SERVER_INFO")
    else if t == SEND_PACKET then Some("SEND_PACKET")
    else if t == RECV_PACKET then Some("RECV_PACKET")
    else if t == KEEP_ALIVE then Some("KEEP_ALIVE")
    else if t == NOTE_PREFERRED then Some("NOTE_PREFERRED")
    else if t == PEER_GONE then Some("PEER_GONE")
    else if t == PEER_PRESENT then Some("PEER_PRESENT")
    else if t == FORWARD_PACKET then Some("FORWARD_PACKET")
    else if t == WATCH_CONNS then Some("WATCH_CONNS")
    else if t == CLOSE_PEER then Some("CLOSE_PEER")
    else if t == PING then Some("PING")
    else if t == PONG then Some("PONG")
    else if t == HEALTH then Some("HEALTH")
    else if t == RESTARTING then Some("RESTARTING")
    else None
  }

  function FrameName(t: Byte): string {
    var n := KnownName(t);
    if n.Some? then n.value else "FRAME_0x" + Hex2(t)
  }

  /** The inverted name table, searched from type t on. */
  function TypeFrom(name: string, t: nat): Option<Byte>
    requires t <= 256
    decreases 256 - t
  {
    if t == 256 then None else if KnownName(t) == Some(name) then Some(t) else TypeFrom(name, t + 1)
  }

  function FrameTypeByName(name: string): Option<Byte> {
    TypeFrom(name, 0)
  }

  const FRAME_PREFIX := "FRAME_"

  /** A frame name, or a hex type with or without the FRAME_ prefix; true says it is a named one. */
  function ResolveFrameType(name: string): Option<(Byte, bool)> {
    var t := FrameTypeByName(name);
    if t.Some? then Some((t.value, true))
    else
      var n := ParseByte(if FRAME_PREFIX <= name then name[|FRAME_PREFIX|..] else name);
      if n.Some? then Some((n.value, false)) else None
  }

  lemma {:induction false} TypeFromFinds(name: string, t: nat)
    requires t <= 256
    ensures match TypeFrom(name, t)
      case Some(u) => KnownName(u) == Some(name)
      case None => forall u: Byte :: t <= u ==> KnownName(u) != Some(name)
    decreases 256 - t
  {
    hide KnownName;
    if t < 256 { TypeFromFinds(name, t + 1); }
  }

  lemma NamesDiffer(t: Byte, u: Byte)
    requires KnownName(t).Some? && KnownName(t) == KnownName(u)
    ensures t == u
  {
    var name := KnownName(t).value;
    if |name| == 10 { assert name[0] in "SKCR"; assert name[4] == KnownName(u).value[4]; }
    if |name| == 11 { assert name[0] == KnownName(u).value[0] && name[1] == KnownName(u).value[1]; }
    if |name| == 14 { assert name[0] == KnownName(u).value[0]; }
    if |name| == 4 { assert name[1] == KnownName(u).value[1]; }
  }

  /** No named type is spelled like a hex one. */
  lemma HexNameIsNew(t: Byte, u: Byte)
    ensures KnownName(u) != Some("FRAME_0x" + Hex2(t))
  {
    var name := "FRAME_0x" + Hex2(t);
    assert |name| == 10 && name[0] == 'F';
  }

  /** Every type's name resolves to that type, named exactly when the table has it. */
  lemma ResolveUndoesName(t: Byte)
    ensures ResolveFrameType(FrameName(t)) == Some((t, KnownName(t).Some?))
  {
    hide KnownName;
    var name := FrameName(t);
    TypeFromFinds(name, 0);
    if KnownName(t).Some? {
      NamesDiffer(FrameTypeByName(name).value, t);
    } else {
      forall u: Byte ensures KnownName(u) != Some(name) { HexNameIsNew(t, u); }
      assert FRAME_PREFIX <= name && name[|FRAME_PREFIX|..] == "0x" + Hex2(t);
      Hex2Reads(t);
    }
  }

  /** The names of the protocol's frame types, by number. */
  lemma NamesAre()
    ensures
      && FrameName(0x01) == "SERVER_KEY" && FrameName(0x02) == "CLIENT_INFO"
      && FrameName(0x03) == "SERVER_INFO" && FrameName(0x04) == "SEND_PACKET"
      && FrameName(0x05) == "RECV_PACKET" && FrameName(0x06) == "KEEP_ALIVE"
      && FrameName(0x07) == "NOTE_PREFERRED" && FrameName(0x08) == "PEER_GONE"
      && FrameName(0x09) == "PEER_PRESENT" && FrameName(0x0A) == "FORWARD_PACKET"
      && FrameName(0x10) == "WATCH_CONNS" && FrameName(0x11) == "CLOSE_PEER"
      && FrameName(0x12) == "PING" && FrameName(0x13) == "PONG"
      && FrameName(0x14) == "HEALTH" && FrameName(0x15) == "RESTARTING"
  {
    hide Hex2;
  }

  /** Any other type is named by its two hex digits. */
  lemma UnnamedAre(t: Byte)
    ensures !(0x01 <= t <= 0x0A || 0x10 <= t <= 0x15) ==>
        FrameName(t) == "FRAME_0x" + ["0123456789abcdef"[t / 16], "0123456789abcdef"[t % 16]]
  {
  }

  /** A type may also be given by its number, in decimal, with or without the prefix of an unnamed type. */
  lemma NumberNamesType(t: Byte)
    ensures ResolveFrameType(Decimal(t)) == Some((t, false)) == ResolveFrameType("FRAME_" + Decimal(t))
  {
    hide KnownName, Decimal;
    DecimalIsByte(t);
    NoNameIsNumber(Decimal(t));
    TypeFromFinds(Decimal(t), 0);
    TypeFromFinds("FRAME_" + Decimal(t), 0);
    assert ("FRAME_" + Decimal(t))[|FRAME_PREFIX|..] == Decimal(t);
  }

  lemma NoNameIsNumber(s: string)
    requires s != "" && DigitValue(s[0]).Some? && DigitValue(s[0]).value < 10
    ensures forall u: Byte :: KnownName(u) != Some(s) && KnownName(u) != Some("FRAME_" + s)
  {
    forall u: Byte ensures KnownName(u) != Some(s) && KnownName(u) != Some("FRAME_" + s) {
      assert ("FRAME_" + s)[0] == 'F' && ("FRAME_" + s)[1] == 'R';
    }
  }
}
