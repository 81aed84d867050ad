/**
 DERP framing (sidescale/derp/derpproto/codec.go) and the buffered reader over it (sidescale/derp/tunnel.go).
 A frame is one type byte, a big-endian 32-bit length and that many payload bytes.
 */
module Framing {
  import opened Common

  const HEADER_LEN := 5
  const MAX_FRAME := 0x10_0000    // 1 MiB
  const READ_SIZE := 0x8000       // 32 KiB
  const PREFIX_MAX := 0x1000      // what a bufio.Reader can hold back

  // ---- the codec -------------------------------------------------------------------

  function PutUint32(n: nat): (b: Bytes)
    ensures |b| == 4
  {
    [n / 0x100_0000 % 0x100, n / 0x1_0000 % 0x100, n / 0x100 % 0x100, n % 0x100]
  }

  function Uint32(b: Bytes): (n: nat)
    requires |b| == 4
    ensures n < 0x1_0000_0000
  {
    var b0: int, b1: int, b2: int, b3: int := b[0], b[1], b[2], b[3];
    b0 * 0x100_0000 + b1 * 0x1_0000 + b2 * 0x100 + b3
  }

  // Base 256, one digit at a time: n is its quotient, shifted, and its last digit.

  function High(n: nat): nat { n / 0x100 }

  function Low(n: nat): (d: nat)
    ensures d < 0x100
  {
    n % 0x100
  }

  lemma Digits(n: nat)
    ensures n == High(n) * 0x100 + Low(n)
  {
  }

  /** Only one quotient and digit make up a number. */
  lemma DigitsAre(n: nat, high: nat, low: nat)
    requires n == high * 0x100 + low && low < 0x100
    ensures High(n) == high && Low(n) == low
  {
  }

  lemma High2(n: nat)
    ensures n / 0x1_0000 == High(High(n))
  {
    hide High, Low;
    Digits(n);
    Digits(High(n));
  }

  lemma High3(n: nat)
    ensures n / 0x100_0000 == High(High(High(n)))
  {
    hide High, Low;
    Digits(n);
    Digits(High(n));
    Digits(High(High(n)));
  }

  /** PutUint32 writes the last four digits, most significant first. */
  lemma PutDigits(n: nat)
    ensures PutUint32(n) == [Low(High(High(High(n)))), Low(High(High(n))), Low(High(n)), Low(n)]
  {
    hide High;
    High2(n);
    High3(n);
    assert High(n) == n / 0x100 by { HighIs(n); }
  }

  lemma HighIs(n: nat)
    ensures High(n) == n / 0x100
  {
  }

  lemma PutUint32Undoes(b: Bytes)
    requires |b| == 4
    ensures PutUint32(Uint32(b)) == b
  {
    hide High, Low, PutUint32;
    var b0: int, b1: int, b2: int, b3: int := b[0], b[1], b[2], b[3];
    var high := b0 * 0x100 + b1;
    var middle := high * 0x100 + b2;
    DigitsAre(Uint32(b), middle, b3);
    DigitsAre(middle, high, b2);
    DigitsAre(high, b0, b1);
    DigitsAre(b0, 0, b0);
    PutDigits(Uint32(b));
  }

  /** The value of four digits over a fifth and higher part, cut to 32 bits. */
  lemma CutTo32(n: nat, top: nat, rest: nat)
    requires n == top * 0x1_0000_0000 + rest && rest < 0x1_0000_0000
    ensures n % 0x1_0000_0000 == rest
  {
  }

  lemma Uint32Wraps(n: nat)
    ensures Uint32(PutUint32(n)) == n % 0x1_0000_0000
  {
    hide High, Low, PutUint32;
    var n1 := High(n);
    var n2 := High(n1);
    var n3 := High(n2);
    Digits(n);
    Digits(n1);
    Digits(n2);
    Digits(n3);
    PutDigits(n);
    CutTo32(n, High(n3), Uint32(PutUint32(n)));
  }

  datatype Split = Incomplete | Whole(n: nat) | TooBig

  function SplitFrame(buf: Bytes): (r: Split)
    ensures r.Whole? ==> HEADER_LEN <= r.n <= |buf| && r.n <= HEADER_LEN + MAX_FRAME
  {
    if |buf| < HEADER_LEN then Incomplete
    else
      var frameLen := Uint32(buf[1..HEADER_LEN]);
      if frameLen > MAX_FRAME then TooBig
      else if |buf| < HEADER_LEN + frameLen then Incomplete
      else Whole(HEADER_LEN + frameLen)
  }

  function FrameHeader(buf: Bytes): Option<(Byte, nat)> {
    if |buf| < HEADER_LEN then None else Some((buf[0], Uint32(buf[1..HEADER_LEN])))
  }

  function FramePayload(frame: Bytes): Bytes {
    if |frame| < HEADER_LEN then [] else frame[HEADER_LEN..]
  }

  /** The wire form of a frame. */
  function Wire(t: Byte, payload: Bytes): Bytes {
    [t] + PutUint32(|payload|) + payload
  }

  /** copy(out[at:], src). */
  method Copy(out: array<Byte>, at: nat, src: Bytes)
    requires at + |src| <= out.Length
    modifies out
    ensures out[..] == old(out[..at]) + src + old(out[at + |src|..])
  {
    for i := 0 to |src|
      invariant out[..at] == old(out[..at])
      invariant out[at..at + i] == src[..i]
      invariant out[at + |src|..] == old(out[at + |src|..])
    {
      out[at + i] := src[i];
    }
    assert out[..] == out[..at] + out[at..at + |src|] + out[at + |src|..];
  }

  method EncodeFrame(t: Byte, payload: Bytes) returns (out: array<Byte>)
    ensures fresh(out) && out[..] == Wire(t, payload)
  {
    out := new Byte[HEADER_LEN + |payload|];
    var len := PutUint32(|payload|);
    out[0] := t;
    out[1], out[2], out[3], out[4] := len[0], len[1], len[2], len[3];
    assert out[..HEADER_LEN] == [t] + len;
    Copy(out, HEADER_LEN, payload);
  }

  /**
   Parsing undoes encoding whatever follows on the stream; a frame is refused exactly when its length field is over
   the cap.
   */
  lemma SplitEncoded(t: Byte, payload: Bytes, rest: Bytes)
    ensures FramePayload(Wire(t, payload)) == payload
    ensures FrameHeader(Wire(t, payload) + rest) == Some((t, |payload| % 0x1_0000_0000))
    ensures SplitFrame(Wire(t, payload) + rest).TooBig? <==> |payload| % 0x1_0000_0000 > MAX_FRAME
    ensures |payload| <= MAX_FRAME ==> SplitFrame(Wire(t, payload) + rest) == Whole(|Wire(t, payload)|)
  {
    hide PutUint32, Uint32;
    Uint32Wraps(|payload|);
    assert (Wire(t, payload) + rest)[1..HEADER_LEN] == PutUint32(|payload|);
  }

  /** Every frame cut off a stream is the encoding of its own type and payload. */
  lemma SplitIsEncoded(buf: Bytes)
    requires SplitFrame(buf).Whole?
    ensures buf[..SplitFrame(buf).n] == Wire(buf[0], FramePayload(buf[..SplitFrame(buf).n]))
  {
    var frame := buf[..SplitFrame(buf).n];
    PutUint32Undoes(buf[1..HEADER_LEN]);
    assert frame == [buf[0]] + buf[1..HEADER_LEN] + frame[HEADER_LEN..];
  }

  /** Once a prefix decides, more bytes change nothing. */
  lemma PrefixDecides(buf: Bytes, more: Bytes)
    requires !SplitFrame(buf).Incomplete?
    ensures SplitFrame(buf + more) == SplitFrame(buf)
  {
    assert (buf + more)[1..HEADER_LEN] == buf[1..HEADER_LEN];
  }

  /** The number four bytes spell, the first most significant. */
  ghost function BigEndian(b: seq<int>): int
    requires |b| == 4
  {
    b[0] * 0x100_0000 + b[1] * 0x1_0000 + b[2] * 0x100 + b[3]
  }

  /**
   A buffer is cut by its second to fifth bytes: under 5 bytes it is short, over 1 MiB it is refused, else the frame is
   the header and as many bytes as it says, if they are there.
   */
  lemma CutByLength(buf: Bytes)
    ensures match SplitFrame(buf)
      case Incomplete => |buf| >= 5 ==> |buf| < 5 + BigEndian(buf[1..5]) <= 5 + 1_048_576
      case TooBig => |buf| >= 5 && BigEndian(buf[1..5]) > 1_048_576
      case Whole(n) => |buf| >= n == 5 + BigEndian(buf[1..5]) && BigEndian(buf[1..5]) <= 1_048_576
  {
  }

  /** On the wire: the type, the length cut to 32 bits with its most significant byte first, the payload. */
  lemma FrameOnTheWire(t: Byte, payload: Bytes)
    ensures var w := Wire(t, payload);
      && |w| == 5 + |payload| && w[0] == t && BigEndian(w[1..5]) == |payload| % 0x1_0000_0000 && w[5..] == payload
  {
    hide PutUint32, Uint32;
    Uint32Wraps(|payload|);
    assert Wire(t, payload)[1..5] == PutUint32(|payload|);
    BigFirst(PutUint32(|payload|));
  }

  lemma BigFirst(b: Bytes)
    requires |b| == 4
    ensures Uint32(b) == BigEndian(b)
  {
  }

  // ---- what a byte stream means, however it is chunked --------------------------------------

  /** How reading ends: an over-cap length at the head of what is left, or the connection running dry. */
  datatype End = Refused | Dry

  datatype Delivery = Delivery(frames: seq<Bytes>, end: End)

  /** Every frame of the stream, in order, and how it ends. */
  function Deliveries(stream: Bytes): Delivery
    decreases |stream|
  {
    match SplitFrame(stream)
    case Incomplete => Delivery([], Dry)
    case TooBig => Delivery([], Refused)
    case Whole(n) => var later := Deliveries(stream[n..]); Delivery([stream[..n]] + later.frames, later.end)
  }

  /** One more frame off the front leaves the rest of the delivery. */
  lemma DeliversNext(stream: Bytes, done: seq<Bytes>)
    ensures match SplitFrame(stream)
      case Incomplete => Deliveries(stream) == Delivery([], Dry)
      case TooBig => Deliveries(stream) == Delivery([], Refused)
      case Whole(n) =>
        && Deliveries(stream).end == Deliveries(stream[n..]).end
        && done + Deliveries(stream).frames == (done + [stream[..n]]) + Deliveries(stream[n..]).frames
  {
    hide SplitFrame;
    if SplitFrame(stream).Whole? {
      var n := SplitFrame(stream).n;
      assert Deliveries(stream).frames == [stream[..n]] + Deliveries(stream[n..]).frames;
    }
  }

  datatype Typed = Typed(t: Byte, payload: Bytes)

  function Encodings(frames: seq<Typed>): seq<Bytes> {
    if frames == [] then [] else [Wire(frames[0].t, frames[0].payload)] + Encodings(frames[1..])
  }

  function Concat(parts: seq<Bytes>): Bytes {
    if parts == [] then [] else parts[0] + Concat(parts[1..])
  }

  lemma DeliversOne(t: Byte, payload: Bytes, rest: Bytes)
    requires |payload| <= MAX_FRAME
    ensures var w := Wire(t, payload);
      Deliveries(w + rest) == Delivery([w] + Deliveries(rest).frames, Deliveries(rest).end)
  {
    hide PutUint32, Uint32;
    var w := Wire(t, payload);
    SplitEncoded(t, payload, rest);
    assert (w + rest)[..|w|] == w && (w + rest)[|w|..] == rest;
  }

  /** Exactly the frames sent, in order, then whatever the tail holds. */
  lemma {:induction false} DeliversWhatWasSent(frames: seq<Typed>, tail: Bytes)
    requires forall f :: f in frames ==> |f.payload| <= MAX_FRAME
    ensures Deliveries(Concat(Encodings(frames)) + tail)
         == Delivery(Encodings(frames) + Deliveries(tail).frames, Deliveries(tail).end)
  {
    hide Deliveries, Wire;
    if frames == [] {
      assert Concat(Encodings(frames)) + tail == tail;
    } else {
      var w := Wire(frames[0].t, frames[0].payload);
      var later := Concat(Encodings(frames[1..]));
      assert Concat([w] + Encodings(frames[1..])) == w + later;
      assert (w + later) + tail == w + (later + tail);
      DeliversOne(frames[0].t, frames[0].payload, later + tail);
      DeliversWhatWasSent(frames[1..], tail);
      assert [w] + (Encodings(frames[1..]) + Deliveries(tail).frames) == Encodings(frames) + Deliveries(tail).frames;
    }
  }

  /**
   Nothing is lost or invented: the frames delivered are the front of the stream, and what is left starts no whole
   frame.
   */
  lemma {:induction false} DeliversAll(stream: Bytes)
    ensures var d := Deliveries(stream); var done := Concat(d.frames);
      && done <= stream
      && SplitFrame(stream[|done|..]) == if d.end == Refused then TooBig else Incomplete
    decreases |stream|
  {
    hide PutUint32, Uint32;
    var d := Deliveries(stream);
    match SplitFrame(stream)
    case Incomplete => assert stream[|Concat(d.frames)|..] == stream;
    case TooBig => assert stream[|Concat(d.frames)|..] == stream;
    case Whole(n) =>
      DeliversAll(stream[n..]);
      var later := Deliveries(stream[n..]).frames;
      assert Concat([stream[..n]] + later) == stream[..n] + Concat(later);
      assert stream[|Concat(d.frames)|..] == stream[n..][|Concat(later)|..];
  }

  // ---- frameConn ---------------------------------------------------------------------------

  /** The network side: each Read takes the next chunk; no chunks left is a read error. */
  class Conn {
    var chunks: seq<Bytes>

    constructor (chunks: seq<Bytes>)
      ensures this.chunks == chunks
    {
      this.chunks := chunks;
    }

    method Read() returns (data: Bytes, ok: bool)
      modifies this
      ensures ok <==> old(chunks) != []
      ensures ok ==> [data] + chunks == old(chunks)
      ensures !ok ==> data == [] && chunks == old(chunks)
    {
      ok := chunks != [];
      data := [];
      if ok {
        data, chunks := chunks[0], chunks[1..];
      }
    }
  }

  datatype ReadResult = Got(frame: Bytes) | Failed(end: End)

  class FrameConn {
    const conn: Conn
    var buffer: Bytes      // the reassembler
    var frameErr: bool

    ghost predicate Valid()
      reads this, conn
    {
      && |buffer| < HEADER_LEN + MAX_FRAME + READ_SIZE
      && (forall c :: c in conn.chunks ==> |c| <= READ_SIZE)
      && (frameErr ==> SplitFrame(buffer).TooBig?)
    }

    /** Everything not yet delivered: what is buffered, then what is still to be read. */
    ghost function Stream(): Bytes
      reads this, conn
    {
      buffer + Concat(conn.chunks)
    }

    constructor (conn: Conn)
      requires forall c :: c in conn.chunks ==> |c| <= READ_SIZE
      ensures this.conn == conn && Valid() && buffer == [] && Stream() == Concat(conn.chunks)
    {
      this.conn, buffer, frameErr := conn, [], false;
    }

    /** Seeds the buffer with bytes read ahead of the frame stream. */
    method Prefix(b: Bytes)
      requires Valid() && buffer == [] && |b| <= PREFIX_MAX
      modifies this
      ensures Valid() && Stream() == b + old(Stream())
    {
      buffer := buffer + b;
      assert b + Concat(conn.chunks) == buffer + Concat(conn.chunks);
    }

    /** Takes the leading frame off the buffer if it is whole; an over-cap length is remembered. */
    method Next() returns (frame: Option<Bytes>)
      requires Valid()
      modifies this
      ensures Valid() && frameErr == SplitFrame(old(buffer)).TooBig?
      ensures match SplitFrame(old(buffer))
        case Whole(n) => frame == Some(old(buffer)[..n]) && buffer == old(buffer)[n..]
        case _ => frame == None && buffer == old(buffer)
    {
      match SplitFrame(buffer)
      case Whole(n) =>
        frame := Some(buffer[..n]);
        buffer := buffer[n..];
      case TooBig =>
        frame := None;
        frameErr := true;
      case Incomplete =>
        frame := None;
    }

    /** The next frame of the stream, or its end; the chunk boundaries do not show. */
    method ReadFrame() returns (r: ReadResult)
      requires Valid()
      modifies this, conn
      ensures Valid() && |buffer| < 5 + 1_048_576 + 32_768
      ensures match SplitFrame(old(Stream()))
        case Whole(n) => r == Got(old(Stream())[..n]) && Stream() == old(Stream())[n..]
        case TooBig => r == Failed(Refused) && Stream() == old(Stream())
        case Incomplete => r == Failed(Dry) && Stream() == old(Stream()) && conn.chunks == []
    {
      hide PutUint32, Uint32;
      ghost var stream := Stream();
      while true
        invariant Valid() && Stream() == stream
        decreases |conn.chunks|
      {
        ghost var was, todo := buffer, Concat(conn.chunks);
        var frame := Next();
        if frame.Some? {
          PrefixDecides(was, todo);
          assert stream[..|frame.value|] == frame.value && stream[|frame.value|..] == buffer + todo;
          return Got(frame.value);
        }
        if frameErr {
          PrefixDecides(was, todo);
          return Failed(Refused);
        }
        var data, ok := conn.Read();
        if !ok {
          assert stream == buffer;
          return Failed(Dry);
        }
        assert buffer + (data + Concat(conn.chunks)) == (buffer + data) + Concat(conn.chunks);
        buffer := buffer + data;
      }
    }

    /** A session's read loop: the frames handed on are those of the stream, whatever its chunks. */
    method ReadAll() returns (frames: seq<Bytes>, end: End)
      requires Valid()
      modifies this, conn
      ensures Valid() && Delivery(frames, end) == Deliveries(old(Stream()))
    {
      hide SplitFrame, Deliveries, Stream, Valid;
      frames := [];
      ghost var all := Deliveries(Stream());
      assert [] + all.frames == all.frames;
      while true
        invariant Valid() && all.end == Deliveries(Stream()).end
        invariant all.frames == frames + Deliveries(Stream()).frames
        decreases |Stream()|
      {
        DeliversNext(Stream(), frames);
        var r := ReadFrame();
        if r.Failed? {
          assert frames + [] == frames;
          return frames, r.end;
        }
        frames := frames + [r.frame];
      }
    }
  }
}
