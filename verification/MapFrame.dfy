/**
 One frame of a map stream (sidescale/tsproto/mapresponse.go): a little-endian 32-bit length and a body that is
 raw JSON or, recognised by its magic, a zstd frame (section 3.1.1 of RFC 8878).
 */
module MapFrame {
  import opened Common
  import opened Framing

  const PREFIX_LEN := 4
  const MAX_MAP_FRAME := 10 * 0x10_0000   // 10 MiB
  const ZSTD_MAGIC: Bytes := [0x28, 0xB5, 0x2F, 0xFD]

  datatype Zstd = Zstd(compress: Bytes -> Bytes, decompress: Bytes -> Option<Bytes>)

  /** What the compression library is relied on for. */
  ghost predicate ZstdOk(z: Zstd) {
    forall b :: ZSTD_MAGIC <= z.compress(b) && z.decompress(z.compress(b)) == Some(b)
  }

  function Reverse4(b: Bytes): (r: Bytes)
    requires |b| == 4
    ensures |r| == 4
  {
    [b[3], b[2], b[1], b[0]]
  }

  /** binary.LittleEndian. */
  function LittleUint32(b: Bytes): (n: nat)
    requires |b| == 4
    ensures n < 0x1_0000_0000
  {
    Uint32(Reverse4(b))
  }

  function PutLittleUint32(n: nat): (b: Bytes)
    ensures |b| == 4
  {
    Reverse4(PutUint32(n))
  }

  lemma LittleWraps(n: nat)
    ensures LittleUint32(PutLittleUint32(n)) == n % 0x1_0000_0000
  {
    Uint32Wraps(n);
    assert Reverse4(PutLittleUint32(n)) == PutUint32(n);
  }

  /** The number in front of a buffer, its first byte least significant. */
  ghost function Prefix(buf: seq<int>): int
    requires |buf| >= 4
  {
    buf[0] + buf[1] * 0x100 + buf[2] * 0x1_0000 + buf[3] * 0x100_0000
  }

  /** The first byte is the least significant. */
  lemma LittleFirst(b: Bytes)
    requires |b| == 4
    ensures LittleUint32(b) == Prefix(b)
  {
  }

  /** Where the leading frame of a buffer ends. */
  function SplitMap(buf: Bytes): (r: Split)
    ensures r.Whole? ==> PREFIX_LEN <= r.n <= |buf| && r.n <= PREFIX_LEN + MAX_MAP_FRAME
  {
    if |buf| < PREFIX_LEN then Incomplete
    else
      var length := LittleUint32(buf[..PREFIX_LEN]);
      if length > MAX_MAP_FRAME then TooBig
      else if |buf| < PREFIX_LEN + length then Incomplete
      else Whole(PREFIX_LEN + length)
  }

  lemma SplitStays(buf: Bytes, more: Bytes)
    requires !SplitMap(buf).Incomplete?
    ensures SplitMap(buf + more) == SplitMap(buf)
  {
    hide LittleUint32;
    assert (buf + more)[..PREFIX_LEN] == buf[..PREFIX_LEN];
  }

  datatype Decoded = NeedMore | Malformed | Decoded(json: Bytes, compressed: bool, consumed: nat)

  function DecodeMapFrame(z: Zstd, buf: Bytes): Decoded {
    if |buf| < PREFIX_LEN then NeedMore
    else
      var length := LittleUint32(buf[..PREFIX_LEN]);
      if length > MAX_MAP_FRAME then Malformed
      else if |buf| < PREFIX_LEN + length then NeedMore
      else
        var body := buf[PREFIX_LEN..PREFIX_LEN + length];
        if !(ZSTD_MAGIC <= body) then Decoded(body, false, PREFIX_LEN + length)
        else
          var json := z.decompress(body);
          if json.None? then Malformed else Decoded(json.value, true, PREFIX_LEN + length)
  }

  function Body(z: Zstd, json: Bytes, compress: bool): Bytes {
    if compress then z.compress(json) else json
  }

  function EncodeMapFrame(z: Zstd, json: Bytes, compress: bool): Bytes {
    PutLittleUint32(|Body(z, json, compress)|) + Body(z, json, compress)
  }

  /**
   A frame whose body is within the cap decodes, whatever follows it, to its JSON and its mode exactly when it is
   compressed or its raw body does not begin with the zstd magic.
   */
  lemma DecodeUndoesEncode(z: Zstd, json: Bytes, compress: bool, rest: Bytes)
    requires ZstdOk(z) && |Body(z, json, compress)| <= MAX_MAP_FRAME
    ensures var frame := EncodeMapFrame(z, json, compress);
      && SplitMap(frame + rest) == Whole(|frame|)
      && (DecodeMapFrame(z, frame + rest) == Decoded(json, compress, |frame|) <==> compress || !(ZSTD_MAGIC <= json))
  {
    hide Uint32, PutUint32, LittleUint32, PutLittleUint32;
    var body, buf := Body(z, json, compress), EncodeMapFrame(z, json, compress) + rest;
    LittleWraps(|body|);
    assert buf[..PREFIX_LEN] == PutLittleUint32(|body|);
    assert buf[PREFIX_LEN..PREFIX_LEN + |body|] == body;
  }

  /** On the wire the length comes first, least significant byte first, cut to 32 bits; then the body. */
  lemma FrameOnTheWire(z: Zstd, json: Bytes, compress: bool)
    ensures var (frame, body) := (EncodeMapFrame(z, json, compress), if compress then z.compress(json) else json);
      && |frame| == 4 + |body| && frame[4..] == body
      && Prefix(frame) == |body| % 0x1_0000_0000
  {
    hide LittleUint32, PutLittleUint32;
    var frame, body := EncodeMapFrame(z, json, compress), Body(z, json, compress);
    LittleWraps(|body|);
    LittleFirst(frame[..4]);
    assert frame[..4] == PutLittleUint32(|body|);
  }

  /**
   A buffer is cut by its first four bytes: under 4 it is short, over 10 MiB it is refused, else the frame is the prefix
   and as many bytes as it says, if they are there.
   */
  lemma CutByPrefix(buf: Bytes)
    ensures match SplitMap(buf)
      case Incomplete => |buf| >= 4 ==> |buf| < 4 + Prefix(buf) <= 4 + 10_485_760
      case TooBig => |buf| >= 4 && Prefix(buf) > 10_485_760
      case Whole(n) => |buf| >= n == 4 + Prefix(buf) && Prefix(buf) <= 10_485_760
  {
    hide LittleUint32;
    if |buf| >= 4 { LittleFirst(buf[..4]); }
  }

  /** A whole frame is decompressed exactly when its body begins 28 B5 2F FD; any other body is the JSON itself. */
  lemma MagicDecides(z: Zstd, buf: Bytes)
    requires SplitMap(buf).Whole?
    ensures var body := buf[4..SplitMap(buf).n];
      var magic := |body| >= 4 && body[0] == 0x28 && body[1] == 0xB5 && body[2] == 0x2F && body[3] == 0xFD;
      match DecodeMapFrame(z, buf)
      case NeedMore => false
      case Malformed => magic && z.decompress(body) == None
      case Decoded(json, compressed, consumed) =>
        && consumed == SplitMap(buf).n && compressed == magic
        && (if magic then z.decompress(body) == Some(json) else json == body)
  {
    hide LittleUint32;
  }

  /** A frame whose body is over the cap never decodes to that body: its length is refused, or has wrapped. */
  lemma OversizeDoesNotDecode(z: Zstd, json: Bytes, compress: bool)
    requires |Body(z, json, compress)| > MAX_MAP_FRAME
    ensures var frame := EncodeMapFrame(z, json, compress);
      SplitMap(frame) != Whole(|frame|)
      && (!DecodeMapFrame(z, frame).Decoded? || DecodeMapFrame(z, frame).consumed < |frame|)
  {
    hide Uint32, PutUint32, LittleUint32, PutLittleUint32;
    var body, frame := Body(z, json, compress), EncodeMapFrame(z, json, compress);
    LittleWraps(|body|);
    assert frame[..PREFIX_LEN] == PutLittleUint32(|body|);
  }

  /** A frame cut off by SplitMap is never too short to decode, and decoding it uses all of it. */
  lemma SplitIsNeverShort(z: Zstd, buf: Bytes)
    requires SplitMap(buf).Whole?
    ensures var d := DecodeMapFrame(z, buf[..SplitMap(buf).n]);
      !d.NeedMore? && (d.Decoded? ==> d.consumed == SplitMap(buf).n)
  {
    assert buf[..SplitMap(buf).n][..PREFIX_LEN] == buf[..PREFIX_LEN];
  }

  // ---- a stream of frames, however it is chunked --------------------------------------------------

  function MapFrames(stream: Bytes): Delivery
    decreases |stream|
  {
    match SplitMap(stream)
    case Incomplete => Delivery([], Dry)
    case TooBig => Delivery([], Refused)
    case Whole(n) => var later := MapFrames(stream[n..]); Delivery([stream[..n]] + later.frames, later.end)
  }

  /** f is exactly one frame. */
  predicate IsFrame(f: Bytes) {
    SplitMap(f) == Whole(|f|)
  }

  lemma CutIsFrame(buf: Bytes)
    requires SplitMap(buf).Whole?
    ensures IsFrame(buf[..SplitMap(buf).n])
  {
    var n := SplitMap(buf).n;
    assert buf[..n][..PREFIX_LEN] == buf[..PREFIX_LEN];
  }

  lemma FrameInFront(f: Bytes, rest: Bytes)
    requires IsFrame(f)
    ensures MapFrames(f + rest) == Delivery([f] + MapFrames(rest).frames, MapFrames(rest).end)
  {
    hide SplitMap;
    SplitStays(f, rest);
    assert (f + rest)[..|f|] == f && (f + rest)[|f|..] == rest;
  }

  /** Frames already taken stay the front of the stream as more bytes arrive behind them. */
  lemma {:induction false} FramesInFront(frames: seq<Bytes>, rest: Bytes)
    requires forall f :: f in frames ==> IsFrame(f)
    ensures MapFrames(Concat(frames) + rest) == Delivery(frames + MapFrames(rest).frames, MapFrames(rest).end)
  {
    hide IsFrame, MapFrames;
    if frames == [] {
      assert Concat(frames) + rest == rest;
      assert frames + MapFrames(rest).frames == MapFrames(rest).frames;
    } else {
      var f, later := frames[0], Concat(frames[1..]) + rest;
      assert Concat(frames) + rest == f + later;
      assert f in frames && IsFrame(f);
      FrameInFront(f, later);
      FramesInFront(frames[1..], rest);
      assert [f] + (frames[1..] + MapFrames(rest).frames) == frames + MapFrames(rest).frames;
    }
  }

  lemma {:induction false} ConcatAppend(parts: seq<Bytes>, last: Bytes)
    ensures Concat(parts + [last]) == Concat(parts) + last
  {
    if parts == [] {
      assert parts + [last] == [last];
    } else {
      assert (parts + [last])[1..] == parts[1..] + [last];
      ConcatAppend(parts[1..], last);
    }
  }
}
