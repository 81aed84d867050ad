/**
 The tail of a PEER_PRESENT payload after its node key (sidescale/derp/derpproto/codec.go): a 16-byte address,
 a big-endian 16-bit port, a flags byte, and an app name behind a one-byte length. Older servers stop at any field.
 */
module PeerPresent {
  import opened Common
  import opened Framing

  const BASE_LEN := 20
  const NAME_MAX := 0xFF

  /** netip.Addr: none, or 4 or 16 bytes. */
  datatype Addr = NoAddr | V4(a4: Bytes) | V6(a16: Bytes)

  ghost predicate AddrOk(a: Addr) {
    (a.V4? ==> |a.a4| == 4) && (a.V6? ==> |a.a16| == 16)
  }

  function Zeros(n: nat): (b: Bytes)
    ensures |b| == n && forall i :: 0 <= i < n ==> b[i] == 0
  {
    seq(n, i => 0)
  }

  /** The prefix of an IPv4-mapped IPv6 address, section 2.5.5.2 of RFC 4291. */
  const MAPPED: Bytes := [0, 0, 0, 0, 0, 0, 0, 0, 0, 0, 0xFF, 0xFF]

  function Unmap(a: Addr): Addr {
    if a.V6? && MAPPED <= a.a16 then V4(a.a16[|MAPPED|..]) else a
  }

  function As16(a: Addr): Bytes {
    match a
    case NoAddr => Zeros(16)
    case V4(a4) => MAPPED + a4
    case V6(a16) => a16
  }

  datatype AddrPort = AddrPort(addr: Addr, port: nat)

  datatype Info = Info(ipPort: Option<AddrPort>, flags: Option<Byte>, appName: Option<Bytes>)

  function ParseTail(tail: Bytes): Info {
    if |tail| < 18 then Info(None, None, None)
    else
      var ipPort := Some(AddrPort(Unmap(V6(tail[..16])), tail[16] as nat * 0x100 + tail[17]));
      if |tail| < 19 then Info(ipPort, None, None)
      else if |tail| < 20 || |tail| - 20 < tail[19] then Info(ipPort, Some(tail[18]), None)
      else Info(ipPort, Some(tail[18]), Some(tail[20..20 + tail[19]]))
  }

  /** The wire form of a complete tail. */
  function TailBytes(ipPort: AddrPort, flags: Byte, appName: Bytes): Bytes
    requires |appName| <= NAME_MAX
  {
    As16(ipPort.addr) + [ipPort.port / 0x100 % 0x100, ipPort.port % 0x100, flags, |appName|] + appName
  }

  /** Sixteen address bytes, the port with its high byte first, the flags, the name's length, the name. */
  lemma TailOnTheWire(ipPort: AddrPort, flags: Byte, appName: Bytes)
    requires AddrOk(ipPort.addr) && ipPort.port < 0x1_0000 && |appName| <= 255
    ensures var tail: seq<int> := TailBytes(ipPort, flags, appName);
      && |tail| == 20 + |appName| && tail[16] * 256 + tail[17] == ipPort.port && tail[18] == flags
      && tail[19] == |appName| && tail[20..] == appName
      && (ipPort.addr.V6? ==> tail[..16] == ipPort.addr.a16)
      && (ipPort.addr.V4? ==> tail[..16] == [0, 0, 0, 0, 0, 0, 0, 0, 0, 0, 0xFF, 0xFF] + ipPort.addr.a4)
      && (ipPort.addr.NoAddr? ==> tail[..16] == seq(16, i => 0))
  {
  }

  /** null is the error: the name does not fit its one-byte length. */
  method BuildTail(ipPort: AddrPort, flags: Byte, appName: Bytes) returns (out: array?<Byte>)
    requires AddrOk(ipPort.addr)
    ensures out == null <==> |appName| > 255
    ensures out != null ==> fresh(out) && out[..] == TailBytes(ipPort, flags, appName)
  {
    if |appName| > NAME_MAX {
      return null;
    }
    var tail := new Byte[BASE_LEN + |appName|];
    var a16 := As16(ipPort.addr);
    Copy(tail, 0, a16);
    assert tail[..16] == a16;
    tail[16], tail[17] := ipPort.port / 0x100 % 0x100, ipPort.port % 0x100;
    tail[18] := flags;
    tail[19] := |appName|;
    assert tail[..BASE_LEN] == a16 + [ipPort.port / 0x100 % 0x100, ipPort.port % 0x100, flags, |appName|];
    Copy(tail, BASE_LEN, appName);
    return tail;
  }

  /**
   Parsing a built tail recovers port, flags and name exactly, and the address up to unmapping; no address reads as
   "::".
   */
  lemma ParseUndoesBuild(ipPort: AddrPort, flags: Byte, appName: Bytes)
    requires AddrOk(ipPort.addr) && ipPort.port < 0x1_0000 && |appName| <= NAME_MAX
    ensures var addr := if ipPort.addr.NoAddr? then V6(Zeros(16)) else Unmap(ipPort.addr);
      ParseTail(TailBytes(ipPort, flags, appName))
      == Info(Some(AddrPort(addr, ipPort.port)), Some(flags), Some(appName))
  {
    var tail := TailBytes(ipPort, flags, appName);
    assert tail[..16] == As16(ipPort.addr) && tail[20..20 + |appName|] == appName;
    if ipPort.addr.V4? { assert (MAPPED + ipPort.addr.a4)[|MAPPED|..] == ipPort.addr.a4; }
    assert ipPort.addr.NoAddr? ==> !(MAPPED <= Zeros(16)) by { assert MAPPED[10] != Zeros(16)[10]; }
  }

  lemma RemapsExactly(a16: Bytes)
    requires |a16| == 16
    ensures As16(Unmap(V6(a16))) == a16 && AddrOk(Unmap(V6(a16)))
  {
  }

  /** Building from a fully parsed tail gives its bytes back, up to the end of the name. */
  lemma BuildUndoesParse(tail: Bytes)
    requires ParseTail(tail).appName.Some?
    ensures var i := ParseTail(tail); var name := i.appName.value;
      && |name| <= NAME_MAX && i.ipPort.Some? && i.flags.Some? && AddrOk(i.ipPort.value.addr)
      && BASE_LEN + |name| <= |tail|
      && TailBytes(i.ipPort.value, i.flags.value, name) == tail[..BASE_LEN + |name|]
  {
    hide As16, Unmap;
    var n := |ParseTail(tail).appName.value|;
    RemapsExactly(tail[..16]);
    assert tail[..BASE_LEN + n] == tail[..16] + tail[16..20] + tail[20..BASE_LEN + n];
  }

  /** A built tail cut anywhere shows exactly the fields whose last byte is still there. */
  lemma CutShowsWhatFits(ipPort: AddrPort, flags: Byte, appName: Bytes, n: nat)
    requires AddrOk(ipPort.addr) && ipPort.port < 0x1_0000 && |appName| <= NAME_MAX
    requires n <= |TailBytes(ipPort, flags, appName)|
    ensures var tail := TailBytes(ipPort, flags, appName); var cut := ParseTail(tail[..n]);
      && cut.ipPort == (if n >= 18 then ParseTail(tail).ipPort else None)
      && cut.flags == (if n >= 19 then Some(flags) else None)
      && cut.appName == (if n == |tail| then Some(appName) else None)
  {
    hide As16, Unmap;
    As16Size(ipPort.addr);
    var tail := TailBytes(ipPort, flags, appName);
    assert n >= 18 ==> tail[..n][..16] == tail[..16];
    if n == |tail| {
      assert tail[..n] == tail;
      ParseUndoesBuild(ipPort, flags, appName);
    }
  }

  lemma As16Size(a: Addr)
    requires AddrOk(a)
    ensures |As16(a)| == 16
  {
  }

  ghost predicate Kept<T>(short: Option<T>, long: Option<T>) {
    short == None || short == long
  }

  /** Cutting a tail short only loses trailing fields: whatever the prefix shows, the whole shows too. */
  lemma PrefixLosesOnly(tail: Bytes, n: nat)
    requires n <= |tail|
    ensures var cut, whole := ParseTail(tail[..n]), ParseTail(tail);
      && Kept(cut.ipPort, whole.ipPort) && Kept(cut.flags, whole.flags) && Kept(cut.appName, whole.appName)
      && (cut.appName.Some? ==> cut.flags.Some?) && (cut.flags.Some? ==> cut.ipPort.Some?)
  {
    if n >= 18 { assert tail[..n][..16] == tail[..16]; }
    if n >= 20 && tail[19] <= n - 20 { assert tail[..n][20..20 + tail[19]] == tail[20..20 + tail[19]]; }
  }
}
