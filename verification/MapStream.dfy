/**
 The map stream reader (sidescale/noise/mapstream.go): a body read through in whatever pieces the client asks for,
 each frame captured as a child flow and passed on, rewritten when a rule fires.
 */
module MapStream {
  import opened Common
  import opened Framing
  import opened MapFrame
  import opened Text

  /**
   What is fixed for one stream: the compression library, the pushed rules, and the parent flow ("" when uncaptured).
   */
  datatype Filter = Filter(zstd: Zstd, rules: Bytes -> Option<Bytes>, parent: string)

  /** A child flow of the stream; the headers carry the body as it is on the wire. */
  datatype Child = Child(parent: string, body: Bytes, compressedBytes: string, compressedLen: string)

  function ChildOf(parent: string, json: Bytes, frame: Bytes): Child
    requires |frame| >= PREFIX_LEN
  {
    Child(parent, json, Encode64(frame[PREFIX_LEN..]), Decimal(|frame| - PREFIX_LEN))
  }

  datatype Pass = Pass(out: Bytes, child: Child)

  /** What one frame becomes on its way to the client, and how it is captured; None when it does not decode. */
  function Processed(x: Filter, frame: Bytes): (r: Option<Pass>)
    ensures r.Some? ==> |r.value.out| >= PREFIX_LEN
  {
    match DecodeMapFrame(x.zstd, frame)
    case Decoded(json, compressed, _) =>
      var mut := x.rules(json);
      if mut.None? then Some(Pass(frame, ChildOf(x.parent, json, frame)))
      else
        var out := EncodeMapFrame(x.zstd, mut.value, compressed);
        Some(Pass(out, ChildOf(x.parent, mut.value, out)))
    case _ => None
  }

  /** The bytes a run of frames becomes. */
  function Outputs(x: Filter, frames: seq<Bytes>): Bytes {
    if frames == [] then []
    else
      var p := Processed(x, frames[|frames| - 1]);
      Outputs(x, frames[..|frames| - 1]) + if p.Some? then p.value.out else []
  }

  /** The child flows a run of frames leaves, in order. */
  function Children(x: Filter, frames: seq<Bytes>): seq<Child> {
    if frames == [] then []
    else
      var p := Processed(x, frames[|frames| - 1]);
      Children(x, frames[..|frames| - 1]) + if p.Some? then [p.value.child] else []
  }

  lemma RunAppend(x: Filter, frames: seq<Bytes>, f: Bytes)
    requires Processed(x, f).Some?
    ensures Outputs(x, frames + [f]) == Outputs(x, frames) + Processed(x, f).value.out
    ensures Children(x, frames + [f]) == Children(x, frames) + [Processed(x, f).value.child]
  {
    hide Processed;
    assert (frames + [f])[..|frames|] == frames;
  }

  // ---- what surrounds the reader ---------------------------------------------------------------------

  datatype Signal = More | Eof | Broken

  /** One result of reading the upstream body: bytes, possibly with an end or an error. */
  datatype Piece = Piece(data: Bytes, signal: Signal)

  /** The bytes up to the end of the body. */
  function Rest(pieces: seq<Piece>): Bytes {
    if pieces == [] then []
    else if pieces[0].signal == Eof then pieces[0].data
    else pieces[0].data + Rest(pieces[1..])
  }

  class Upstream {
    var pieces: seq<Piece>
    var closed: bool

    constructor (pieces: seq<Piece>)
      ensures this.pieces == pieces && !closed
    {
      this.pieces, closed := pieces, false;
    }

    /** The next piece; a body with nothing left is at its end. */
    method Read() returns (p: Piece)
      modifies `pieces
      ensures old(pieces) == [] ==> p == Piece([], Eof) && pieces == []
      ensures old(pieces) != [] ==> [p] + pieces == old(pieces)
    {
      p := Piece([], Eof);
      if pieces != [] {
        p, pieces := pieces[0], pieces[1..];
      }
    }

    method Close()
      modifies `closed
      ensures closed
    {
      closed := true;
    }
  }

  /** The core: child flows and completed parents are logged; accepts says whether the n-th push is taken. */
  class Core {
    const accepts: nat -> bool
    var pushes: nat
    var children: seq<Child>
    var completed: seq<string>

    constructor (accepts: nat -> bool)
      ensures this.accepts == accepts && children == [] && completed == []
    {
      this.accepts := accepts;
      pushes, children, completed := 0, [], [];
    }

    method PushFlow(c: Child) returns (ok: bool)
      modifies `pushes, `children
      ensures pushes == old(pushes) + 1 && ok == accepts(old(pushes))
      ensures children == if ok then old(children) + [c] else old(children)
    {
      ok := accepts(pushes);
      pushes := pushes + 1;
      if ok {
        children := children + [c];
      }
    }

    method CompleteFlow(id: string)
      modifies `completed
      ensures completed == old(completed) + [id]
    {
      completed := completed + [id];
    }
  }

  // ---- the reader ---------------------------------------------------------------------------------------

  datatype Outcome = Fine | AtEnd | OverCap | BadFrame | ReadError

  class MapStreamReader {
    const filter: Filter
    const core: Core
    const upstream: Upstream
    var buffer: Bytes             // the reassembler
    var pending: Bytes            // processed bytes not yet delivered
    var done: bool
    var finished: bool
    var frameErr: bool
    ghost var seen: Bytes         // every byte read from upstream
    ghost var handled: seq<Bytes> // every frame processed
    ghost var delivered: Bytes    // every byte handed to the client
    ghost var dropped: bool       // a frame was lost to an error
    ghost var lost: Bytes         // the last frame so lost

    ghost predicate Valid()
      reads this, core
    {
      && Bounded() && Captured()
      && (forall f :: f in handled ==> IsFrame(f) && Processed(filter, f).Some?)
      && delivered + pending == Outputs(filter, handled)
      && core.children == Children(filter, handled)
      && (!dropped ==> seen == Concat(handled) + buffer)
    }

    ghost predicate Bounded()
      reads `buffer, `frameErr
    {
      |buffer| < PREFIX_LEN + MAX_MAP_FRAME + READ_SIZE && (frameErr ==> SplitMap(buffer).TooBig?)
    }

    /** The parent is completed at most once, and never when it was not captured. */
    ghost predicate Captured()
      reads `finished, core`completed
    {
      core.completed == (if finished then [filter.parent] else []) && (finished ==> filter.parent != "")
    }

    ghost predicate PiecesOk()
      reads this, upstream
    {
      forall p :: p in upstream.pieces ==> |p.data| <= READ_SIZE
    }

    constructor (filter: Filter, core: Core, upstream: Upstream)
      requires core.children == [] && core.completed == []
      ensures this.filter == filter && this.core == core && this.upstream == upstream
      ensures Valid() && seen == delivered == [] && !done && !dropped && !finished
    {
      this.filter, this.core, this.upstream := filter, core, upstream;
      buffer, pending, done, finished, frameErr := [], [], false, false, false;
      seen, handled, delivered, dropped, lost := [], [], [], false, [];
    }

    method Finish()
      requires Valid()
      modifies `finished, core`completed
      ensures Valid() && (finished <==> filter.parent != "")
    {
      if finished || filter.parent == "" {
        return;
      }
      finished := true;
      core.CompleteFlow(filter.parent);
    }

    method Close()
      requires Valid()
      modifies `finished, core`completed, upstream`closed
      ensures Valid() && (finished <==> filter.parent != "") && upstream.closed
    {
      Finish();
      upstream.Close();
    }

    /** Why a frame is lost: it does not decode, or the core has just refused its capture. */
    ghost predicate Failed(frame: Bytes)
      reads core
    {
      Processed(filter, frame).None? || (core.pushes > 0 && !core.accepts(core.pushes - 1))
    }

    /** Captures one frame and returns what to forward; None is an error, and then nothing was captured. */
    method ProcessFrame(frame: Bytes) returns (out: Option<Bytes>)
      modifies core`pushes, core`children
      ensures out.Some? ==> Processed(filter, frame).Some?
      ensures out.Some? ==> out.value == Processed(filter, frame).value.out
      ensures out.Some? ==> core.children == old(core.children) + [Processed(filter, frame).value.child]
      ensures out.None? ==> core.children == old(core.children)
      ensures out.None? ==> Failed(frame)
    {
      var d := DecodeMapFrame(filter.zstd, frame);
      if !d.Decoded? {
        return None;
      }
      var mut := filter.rules(d.json);
      if mut.None? {
        var ok := core.PushFlow(ChildOf(filter.parent, d.json, frame));
        return if ok then Some(frame) else None;
      }
      var outFrame := EncodeMapFrame(filter.zstd, mut.value, d.compressed);
      var ok := core.PushFlow(ChildOf(filter.parent, mut.value, outFrame));
      return if ok then Some(outFrame) else None;
    }

    /** Takes the leading frame off the buffer if it is whole; an over-cap length is remembered. */
    method Next() returns (frame: Option<Bytes>)
      requires Bounded()
      modifies `buffer, `frameErr
      ensures Bounded() && frameErr == SplitMap(old(buffer)).TooBig?
      ensures match SplitMap(old(buffer))
        case Whole(n) => frame == Some(old(buffer)[..n]) && buffer == old(buffer)[n..]
        case _ => frame == None && buffer == old(buffer)
    {
      match SplitMap(buffer)
      case Whole(n) =>
        frame := Some(buffer[..n]);
        buffer := buffer[n..];
      case TooBig =>
        frame := None;
        frameErr := true;
      case Incomplete =>
        frame := None;
    }

    /** The whole upstream body: what was read of it, then what is still to come. */
    ghost function Whole(): Bytes
      reads this, upstream
    {
      if done then seen else seen + Rest(upstream.pieces)
    }

    /** The lost frame comes right after the frames handled. */
    ghost predicate LostNext()
      reads this
    {
      IsFrame(lost) && seen == Concat(handled) + (lost + buffer)
    }

    /** One whole frame off the buffer, captured and made pending; false loses it to an error. */
    method Take(frame: Bytes) returns (ok: bool)
      requires Bounded() && Captured() && pending == [] && IsFrame(frame)
      requires forall f :: f in handled ==> IsFrame(f) && Processed(filter, f).Some?
      requires delivered == Outputs(filter, handled) && core.children == Children(filter, handled)
      requires !dropped ==> seen == Concat(handled) + (frame + buffer)
      modifies `pending, `handled, `dropped, `lost, core`pushes, core`children
      ensures Valid() && dropped == (old(dropped) || !ok)
      ensures ok ==> pending != []
      ensures !ok ==> pending == [] && Failed(lost)
      ensures !ok && !old(dropped) ==> LostNext()
    {
      hide SplitMap, Processed, IsFrame, Outputs, Children, Concat;
      var out := ProcessFrame(frame);
      if out.None? {
        dropped, lost := true, frame;
        return false;
      }
      ghost var was := handled;
      pending := out.value;
      handled := handled + [frame];
      RunAppend(filter, was, frame);
      ConcatAppend(was, frame);
      assert Concat(was) + (frame + buffer) == (Concat(was) + frame) + buffer;
      return true;
    }

    /** Reads one piece of the upstream body into the buffer. */
    method Fill() returns (signal: Signal)
      requires Valid() && PiecesOk() && !done && SplitMap(buffer).Incomplete?
      modifies `buffer, `seen, `done, upstream`pieces
      ensures Valid() && PiecesOk() && Whole() == old(Whole()) && done == (signal == Eof)
      ensures old(upstream.pieces) != [] ==> |upstream.pieces| < |old(upstream.pieces)|
      ensures old(upstream.pieces) == [] ==> signal == Eof && upstream.pieces == []
    {
      hide SplitMap, Processed, IsFrame, Outputs, Children, Concat, Captured;
      ghost var before := seen;
      assert |buffer| < PREFIX_LEN + MAX_MAP_FRAME by { ShortIsBounded(buffer); }
      var piece := upstream.Read();
      assert Concat(handled) + (buffer + piece.data) == (Concat(handled) + buffer) + piece.data;
      buffer := buffer + piece.data;
      seen := seen + piece.data;
      done := piece.signal == Eof;
      assert !done ==> before + (piece.data + Rest(upstream.pieces)) == seen + Rest(upstream.pieces);
      return piece.signal;
    }

    /** Hands over as much of pending as p holds. */
    method Deliver(p: array<Byte>) returns (n: nat)
      requires Valid()
      modifies `pending, `delivered, p
      ensures Valid() && n == Min(p.Length, |old(pending)|)
      ensures delivered == old(delivered) + p[..n] && p[n..] == old(p[n..])
    {
      hide Outputs, Children, Processed, IsFrame;
      n := Min(p.Length, |pending|);
      Copy(p, 0, pending[..n]);
      assert p[..n] == pending[..n];
      assert (delivered + pending[..n]) + pending[n..] == delivered + pending;
      delivered := delivered + pending[..n];
      pending := pending[n..];
    }

    /** The leading frame, if it is whole, made pending. */
    method TakeNext() returns (taken: bool, ok: bool)
      requires Valid() && pending == []
      modifies `buffer, `pending, `frameErr, `handled, `dropped, `lost, core`pushes, core`children
      ensures Valid() && (!taken ==> frameErr == SplitMap(buffer).TooBig?)
      ensures taken == SplitMap(old(buffer)).Whole? && (!taken ==> ok && buffer == old(buffer))
      ensures dropped == (old(dropped) || !ok) && (pending != [] <==> taken && ok)
      ensures !ok ==> Failed(lost) && (!old(dropped) ==> LostNext())
    {
      hide Outputs, Children, Processed, IsFrame, Concat, SplitMap;
      ghost var was := buffer;
      var frame := Next();
      if frame.None? {
        return false, true;
      }
      CutIsFrame(was);
      assert was == frame.value + buffer;
      ok := Take(frame.value);
      taken := true;
    }

    /** Reads on until something is pending, or an outcome ends the stream and completes its parent. */
    method Ready() returns (outcome: Outcome)
      requires Valid() && PiecesOk()
      modifies `buffer, `pending, `done, `finished, `frameErr, `seen, `handled, `dropped, `lost, core, upstream`pieces
      ensures Valid() && PiecesOk() && Whole() == old(Whole())
      ensures if outcome == Fine then pending != [] else pending == [] && (finished <==> filter.parent != "")
      ensures dropped == (old(dropped) || outcome == BadFrame)
      ensures outcome == BadFrame ==> Failed(lost) && (!old(dropped) ==> LostNext())
      ensures outcome == AtEnd ==> done && SplitMap(buffer).Incomplete?
      ensures outcome == OverCap ==> SplitMap(buffer).TooBig?
    {
      hide Outputs, Children, Processed, IsFrame, Rest, Concat, SplitMap, Valid, Captured;
      while |pending| == 0
        invariant Valid() && PiecesOk() && Whole() == old(Whole()) && dropped == old(dropped)
        decreases |upstream.pieces|, !done
      {
        var taken, ok := TakeNext();
        if taken {
          if !ok {
            Finish();
            return BadFrame;
          }
          break;
        }
        if frameErr {
          Finish();
          return OverCap;
        }
        if done {
          Finish();
          return AtEnd;
        }
        var signal := Fill();
        if signal == Broken {
          Finish();
          return ReadError;
        }
      }
      return Fine;
    }

    /** io.Reader: some bytes, or an outcome that ends the stream and completes its parent. */
    method Read(p: array<Byte>) returns (n: nat, outcome: Outcome)
      requires Valid() && PiecesOk()
      modifies this, core, upstream`pieces, p
      ensures Valid() && PiecesOk() && Whole() == old(Whole())
      ensures n <= p.Length && delivered == old(delivered) + p[..n] && p[n..] == old(p[n..])
      ensures if outcome == Fine then p.Length > 0 ==> n > 0 else n == 0 && (finished <==> filter.parent != "")
      ensures dropped == (old(dropped) || outcome == BadFrame)
      ensures outcome == BadFrame && !old(dropped) ==> StoppedAt(lost) && Failed(lost)
      ensures !dropped ==> delivered <= Outputs(filter, MapFrames(Whole()).frames)
      ensures outcome == AtEnd && !dropped ==> AllDelivered() && MapFrames(Whole()).end == Dry
      ensures outcome == OverCap && !dropped ==> AllDelivered() && MapFrames(Whole()).end == Refused
    {
      hide Outputs, Children, Processed, IsFrame, Rest, Concat, SplitMap, MapFrames;
      outcome := Ready();
      n := 0;
      if outcome == Fine {
        n := Deliver(p);
      } else {
        assert old(delivered) + p[..0] == delivered;
      }
      if !dropped {
        Progress();
      }
      if outcome == BadFrame && !old(dropped) {
        Stopped();
      }
    }

    /** Every frame of the body before f, and nothing of f or after it, has been passed on and captured. */
    ghost predicate StoppedAt(f: Bytes)
      reads this, upstream, core
    {
      var frames := MapFrames(Whole()).frames;
      && |handled| < |frames| && handled == frames[..|handled|] && frames[|handled|] == f
      && delivered == Outputs(filter, handled) && core.children == Children(filter, handled)
    }

    lemma Stopped()
      requires Valid() && pending == [] && LostNext()
      ensures StoppedAt(lost)
    {
      hide Outputs, Children, Processed, IsFrame, Rest, Concat, SplitMap;
      var ahead := if done then [] else Rest(upstream.pieces);
      var taken := handled + [lost];
      ConcatAppend(handled, lost);
      assert Whole() == Concat(taken) + (buffer + ahead);
      FramesInFront(taken, buffer + ahead);
      var frames := MapFrames(Whole()).frames;
      assert frames == taken + MapFrames(buffer + ahead).frames;
      assert frames[..|handled|] == handled && frames[|handled|] == lost;
    }

    /**
     Every frame of the body up to its end, or up to an over-cap length, has been passed on and captured, once and in
     order.
     */
    ghost predicate AllDelivered()
      reads this, upstream, core
    {
      && delivered == Outputs(filter, MapFrames(Whole()).frames)
      && core.children == Children(filter, MapFrames(Whole()).frames)
    }

    lemma Progress()
      requires Valid() && !dropped
      ensures delivered <= Outputs(filter, MapFrames(Whole()).frames)
      ensures pending == [] && done && SplitMap(buffer).Incomplete? ==> AllDelivered() && MapFrames(Whole()).end == Dry
      ensures pending == [] && SplitMap(buffer).TooBig? ==> AllDelivered() && MapFrames(Whole()).end == Refused
    {
      hide Outputs, Children, Processed, IsFrame, Rest, Concat, SplitMap;
      var ahead := if done then [] else Rest(upstream.pieces);
      assert Whole() == Concat(handled) + (buffer + ahead);
      FramesInFront(handled, buffer + ahead);
      OutputsGrow(filter, handled, MapFrames(buffer + ahead).frames);
      assert SplitMap(buffer).TooBig? ==> SplitMap(buffer + ahead).TooBig? by {
        if SplitMap(buffer).TooBig? { SplitStays(buffer, ahead); }
      }
      assert done ==> buffer + ahead == buffer;
      assert handled + [] == handled;
    }
  }

  lemma {:induction false} OutputsGrow(x: Filter, a: seq<Bytes>, b: seq<Bytes>)
    ensures Outputs(x, a) <= Outputs(x, a + b)
    decreases |b|
  {
    if b == [] {
      assert a + b == a;
    } else {
      var front := b[..|b| - 1];
      OutputsGrow(x, a, front);
      assert (a + b)[..|a + b| - 1] == a + front;
    }
  }

  lemma NothingOut(x: Filter)
    ensures Outputs(x, []) == Concat([])
  {
  }

  lemma PassedAsIs(x: Filter, frame: Bytes)
    requires Processed(x, frame).Some? && forall json :: x.rules(json).None?
    ensures Processed(x, frame).value.out == frame
  {
  }

  /** When no rule fires the stream passes through untouched. */
  lemma {:induction false} UntouchedWithoutRules(x: Filter, frames: seq<Bytes>)
    requires forall json :: x.rules(json).None?
    requires forall f :: f in frames ==> Processed(x, f).Some?
    ensures Outputs(x, frames) == Concat(frames)
  {
    hide Processed, Outputs, Concat;
    if frames == [] {
      NothingOut(x);
    } else {
      var front, f := frames[..|frames| - 1], frames[|frames| - 1];
      UntouchedWithoutRules(x, front);
      assert frames == front + [f] && f in frames;
      ConcatAppend(front, f);
      RunAppend(x, front, f);
      PassedAsIs(x, f);
    }
  }

  /**
   What is captured is the rewritten JSON, or the original, beside the body forwarded. The client decodes it, in the
   mode the frame came in, exactly when no rule fired, or the rewrite's body is within the cap and, if raw, does not
   begin with the zstd magic.
   */
  lemma ClientSeesTheCapture(x: Filter, frame: Bytes)
    requires ZstdOk(x.zstd) && IsFrame(frame) && Processed(x, frame).Some?
    ensures var d, p := DecodeMapFrame(x.zstd, frame), Processed(x, frame).value;
      && d.Decoded?
      && p.child.body == (if x.rules(d.json).Some? then x.rules(d.json).value else d.json)
      && Decode64(p.child.compressedBytes) == Some(p.out[PREFIX_LEN..])
      && p.child.parent == x.parent
      && (IsFrame(p.out) <==> x.rules(d.json).None? || |Body(x.zstd, p.child.body, d.compressed)| <= MAX_MAP_FRAME)
      && (DecodeMapFrame(x.zstd, p.out) == Decoded(p.child.body, d.compressed, |p.out|) <==>
            || x.rules(d.json).None?
            || (&& |Body(x.zstd, p.child.body, d.compressed)| <= MAX_MAP_FRAME
                && (d.compressed || !(ZSTD_MAGIC <= p.child.body))))
  {
    hide Encode64, Decode64, Decimal;
    var d, p := DecodeMapFrame(x.zstd, frame), Processed(x, frame).value;
    Decode64Undoes(p.out[PREFIX_LEN..]);
    assert frame[..|frame|] == frame;
    SplitIsNeverShort(x.zstd, frame);
    if x.rules(d.json).Some? {
      if |Body(x.zstd, p.child.body, d.compressed)| <= MAX_MAP_FRAME {
        DecodeUndoesEncode(x.zstd, p.child.body, d.compressed, []);
        assert p.out + [] == p.out;
      } else {
        OversizeDoesNotDecode(x.zstd, p.child.body, d.compressed);
      }
    }
  }

  lemma ShortIsBounded(buf: Bytes)
    requires SplitMap(buf).Incomplete?
    ensures |buf| < PREFIX_LEN + MAX_MAP_FRAME
  {
  }
}
