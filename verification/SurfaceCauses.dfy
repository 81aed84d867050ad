/**
 What calls and drains come to, told by the events of the run alone: why a dial failed and who hears of it, and what a
 Shutdown counts.
 */
module SurfaceCauses {
  import opened Common
  import opened UpstreamPool
  import opened NoiseSurface
  import opened SurfaceInvariant
  import opened SurfaceSteps
  import opened SurfaceRuns

  // ---- why a dial failed ----------------------------------------------------------------------

  /** Event n of the run is the failure of goroutine t's dial of u. */
  ghost predicate FailsAt(events: seq<Event>, n: nat, t: Tid, u: Uid) {
    && n < |events| && events[n] == DialDone(t, false)
    && At(Run(Start, events[..n]), t).Dialing? && At(Run(Start, events[..n]), t).u == u
  }

  /** The dialer's own context had been canceled when its dial came back. */
  ghost predicate CanceledAt(events: seq<Event>, n: nat, t: Tid) {
    n < |events| && t in Run(Start, events[..n]).threads && Run(Start, events[..n]).threads[t].ctx == Canceled
  }

  lemma FailureIsKept(s: Surface, t: Tid)
    requires Inv(s) && At(s, t).Dialing?
    ensures var u := At(s, t).u; var p := Step(s, DialDone(t, false)).pool;
      u in p.ups && !p.ups[u].dialing && p.ups[u].dialErr && (p.ups[u].dialCanceled <==> s.threads[t].ctx == Canceled)
  {
    hide Inv, Unmap;
    Entitled(s, t);
  }

  /** The flags of an upstream whose dial failed say that it failed, and whether its dialer had been canceled. */
  lemma FailureIsRecorded(events: seq<Event>, n: nat, t: Tid, u: Uid)
    requires FailsAt(events, n, t, u)
    ensures var p := Run(Start, events).pool;
      u in p.ups && !p.ups[u].dialing && p.ups[u].dialErr && (p.ups[u].dialCanceled <==> CanceledAt(events, n, t))
  {
    hide Inv, Step, Run, TunnelLasts;
    var s := Run(Start, events[..n]);
    RunOk(events[..n]);
    FailureIsKept(s, t);
    assert events[..n + 1] == events[..n] + [events[n]];
    RunAppend(Start, events[..n], events[n]);
    RunGrows(events[..n + 1], events[n + 1..]);
    RunConcat(Start, events[..n + 1], events[n + 1..]);
    assert events[..n + 1] + events[n + 1..] == events;
  }

  /** An upstream's dial is marked failed only by the event that failed it. */
  lemma ErrorFrom(s: Surface, e: Event, u: Uid)
    requires Inv(s) && u in NextPool(s, e).ups && NextPool(s, e).ups[u].dialErr
    requires u in s.pool.ups ==> !s.pool.ups[u].dialErr
    ensures e == DialDone(e.t, false) && At(s, e.t).Dialing? && At(s, e.t).u == u
  {
    hide Inv, Unmap, Step;
  }

  lemma {:induction false} ErrorHasEvent(events: seq<Event>, u: Uid) returns (n: nat, t: Tid)
    requires u in Run(Start, events).pool.ups && Run(Start, events).pool.ups[u].dialErr
    ensures FailsAt(events, n, t, u)
    decreases |events|
  {
    hide Inv, Step, NextPool;
    var k := |events| - 1;
    var s := Run(Start, events[..k]);
    RunOk(events[..k]);
    PoolAfter(s, events[k]);
    if u in s.pool.ups && s.pool.ups[u].dialErr {
      n, t := ErrorHasEvent(events[..k], u);
      assert events[..k][..n] == events[..n];
    } else {
      ErrorFrom(s, events[k], u);
      n, t := k, events[k].t;
    }
  }

  /**
   A genuine dial failure costs one dial for all its waiters: whenever a dial that a call has gone round behind failed,
   its dialer's own context had been canceled.
   */
  lemma WaitersGoRoundOnlyCancellation(events: seq<Event>, t: Tid, w: Uid, n: nat, t0: Tid)
    requires t in Run(Start, events).threads && w in Run(Start, events).threads[t].waited
    requires FailsAt(events, n, t0, w)
    ensures CanceledAt(events, n, t0)
  {
    hide Run;
    RunWaited(events, t);
    FailureIsRecorded(events, n, t0, w);
  }

  /**
   A failure handed to a caller is that of a dial that failed; and if it is another's, and the caller's own context
   still lives, the dialer's context had not been canceled.
   */
  lemma HandedFailure(events: seq<Event>, t: Tid) returns (n: nat, t0: Tid)
    requires At(Run(Start, events), t).Failed? && At(Run(Start, events), t).why.DialFailed?
    ensures FailsAt(events, n, t0, At(Run(Start, events), t).why.u)
    ensures var th := Run(Start, events).threads[t];
      th.dialed == None && th.ctx == Live ==> !CanceledAt(events, n, t0)
  {
    hide Run, TunnelsOk, PoolOk, NoLeak, Balanced;
    RunOk(events);
    var s := Run(Start, events);
    assert PcOk(s, s.threads[t], At(s, t));
    n, t0 := ErrorHasEvent(events, At(s, t).why.u);
    FailureIsRecorded(events, n, t0, At(s, t).why.u);
  }

  /**
   A waiter that wakes is handed the failure exactly when the dial it waited for failed and either its dialer had not
   been canceled or its own context has ended; in every other case it goes round the loop.
   */
  lemma WakerHears(events: seq<Event>, t: Tid)
    requires At(Run(Start, events), t).Woken?
    ensures var s := Run(Start, events); var Woken(c, u) := At(s, t);
      At(Step(s, Observe(t)), t) ==
        if exists n, t0 :: FailsAt(events, n, t0, u) && (!CanceledAt(events, n, t0) || s.threads[t].ctx != Live)
        then Failed(c, DialFailed(u)) else Passing(c)
  {
    hide Run, TunnelsOk, PoolOk, NoLeak, Balanced, FailsAt, CanceledAt, Step;
    RunOk(events);
    var s := Run(Start, events);
    var u := At(s, t).u;
    assert PcOk(s, s.threads[t], At(s, t));
    PcAfter(s, Observe(t), t);
    if s.pool.ups[u].dialErr {
      var n, t0 := ErrorHasEvent(events, u);
      assert FailsAt(events, n, t0, u);
    }
    forall n, t0 | FailsAt(events, n, t0, u)
      ensures s.pool.ups[u].dialErr && (s.pool.ups[u].dialCanceled <==> CanceledAt(events, n, t0))
    {
      FailureIsRecorded(events, n, t0, u);
    }
  }

  /** A borrow of a tunnel's upstream takes one ref and stops its timer exactly when the upstream still lives. */
  lemma BorrowIff(events: seq<Event>, t: Tid)
    requires At(Run(Start, events), t).Borrowing?
    ensures var s := Run(Start, events); var u := At(s, t).u; var s' := Step(s, Borrow(t));
      && u in s.pool.ups && u in s'.pool.ups
      && if s.pool.ups[u].closed then At(s', t) == Idle && s'.pool == s.pool
         else At(s', t) == Releasing(u) && s'.pool.ups[u].refs == s.pool.ups[u].refs + 1
              && s'.pool.ups[u].timer == NoTimer && !s'.pool.ups[u].closed
  {
    hide Run, TunnelsOk, PoolOk, NoLeak, Balanced;
    RunOk(events);
    var s := Run(Start, events);
    assert PcOk(s, s.threads[t], At(s, t));
  }

  /** A parked caller may leave with its context's error exactly when its context has ended. */
  lemma AbandonIff(events: seq<Event>, t: Tid)
    requires At(Run(Start, events), t).Parked?
    ensures var s := Run(Start, events);
      At(Step(s, Abandon(t)), t) == if s.threads[t].ctx != Live then Failed(At(s, t).c, CtxDone) else At(s, t)
  {
    hide Run, Step;
    PcAfter(Run(Start, events), Abandon(t), t);
  }

  // ---- how a context ended ------------------------------------------------------------------------

  /** How the context of goroutine t's present task ended: Some(true) is by cancellation, None is not yet. */
  ghost function EndedBy(events: seq<Event>, t: Tid): Option<bool> {
    if events == [] then None
    else
      var front, e := events[..|events| - 1], events[|events| - 1];
      if At(Run(Start, front), t).Idle? && !At(Run(Start, events), t).Idle? then None
      else if e.EndCtx? && e.t == t && t in Run(Start, front).threads && EndedBy(front, t).None? then Some(e.canceled)
      else EndedBy(front, t)
  }

  ghost predicate CtxIs(ctx: Ctx, ended: Option<bool>) {
    match ended
    case None => ctx == Live
    case Some(canceled) => ctx == if canceled then Canceled else Expired
  }

  /** A goroutine's context is live from the start of its task and changes once, by the event that ends it. */
  ghost predicate CtxMoved(s: Surface, e: Event, s': Surface, t: Tid) {
    && (t in s.threads ==> t in s'.threads)
    && (t in s'.threads ==>
          s'.threads[t].ctx ==
            if At(s, t).Idle? && !At(s', t).Idle? then Live
            else if t !in s.threads then s'.threads[t].ctx
            else if e.EndCtx? && e.t == t && s.threads[t].ctx == Live then if e.canceled then Canceled else Expired
            else s.threads[t].ctx)
    && (t in s'.threads && t !in s.threads ==> !At(s', t).Idle?)
  }

  lemma CtxMoves(s: Surface, e: Event, t: Tid)
    ensures CtxMoved(s, e, Step(s, e), t)
  {
    hide Step, CtxMoved;
    if IsCall(e) { CallCtx(s, e, t); } else if IsDrain(e) { DrainCtx(s, e, t); }
    else if MovesTunnels(e) { TunnelCtx(s, e, t); } else { HolderCtx(s, e, t); }
  }

  lemma CallCtx(s: Surface, e: Event, t: Tid)
    requires IsCall(e)
    ensures CtxMoved(s, e, Step(s, e), t)
  {
    hide Pass, DialFails, DialLands, Signal, CloseConn;
  }

  lemma DrainCtx(s: Surface, e: Event, t: Tid)
    requires IsDrain(e)
    ensures CtxMoved(s, e, Step(s, e), t)
  {
    hide Step, CtxMoved;
    if e.DoBeginDrain? || e.Snapshot? || e.DrainPool? { EmptyingCtx(s, e, t); } else { WaitingCtx(s, e, t); }
  }

  lemma EmptyingCtx(s: Surface, e: Event, t: Tid)
    requires e.DoBeginDrain? || e.Snapshot? || e.DrainPool?
    ensures CtxMoved(s, e, Step(s, e), t)
  {
    hide BeginDrain, DrainAll, InRegistry, TornDown;
  }

  lemma WaitingCtx(s: Surface, e: Event, t: Tid)
    requires e.DrainClose? || e.AwaitTunnels? || e.Await? || e.Return?
    ensures CtxMoved(s, e, Step(s, e), t)
  {
    hide CloseConn, InRegistry, TornDown;
  }

  lemma TunnelCtx(s: Surface, e: Event, t: Tid)
    requires MovesTunnels(e)
    ensures CtxMoved(s, e, Step(s, e), t)
  {
    hide Step, CtxMoved;
    if e.OpenTunnel? || e.CloseTunnel? || e.HealSwap? || e.HealFailed? { EndsCtx(s, e, t); } else { StageCtx(s, e, t); }
  }

  lemma EndsCtx(s: Surface, e: Event, t: Tid)
    requires e.OpenTunnel? || e.CloseTunnel? || e.HealSwap? || e.HealFailed?
    ensures CtxMoved(s, e, Step(s, e), t)
  {
    hide TornDown, NewTunnel, MarkHealFailed, MarkClosed, Swap;
  }

  lemma StageCtx(s: Surface, e: Event, t: Tid)
    requires e.Register? || e.CheckDraining? || e.Unwind? || e.Complete? || e.Deregister?
    ensures CtxMoved(s, e, Step(s, e), t)
  {
    hide PhaseAfter;
  }

  lemma HolderCtx(s: Surface, e: Event, t: Tid)
    requires !IsCall(e) && !IsDrain(e) && !MovesTunnels(e)
    ensures CtxMoved(s, e, Step(s, e), t)
  {
    hide Release, Fire, Unmap, TryAcquire, IdleClose, Evict;
  }

  lemma {:induction false} ContextEnds(events: seq<Event>, t: Tid)
    ensures var s := Run(Start, events);
      if t in s.threads then CtxIs(s.threads[t].ctx, EndedBy(events, t)) else EndedBy(events, t) == None
    decreases |events|
  {
    hide Step;
    if events != [] {
      var k := |events| - 1;
      ContextEnds(events[..k], t);
      CtxMoves(Run(Start, events[..k]), events[k], t);
    }
  }

  /** A dialer had been canceled exactly when the event that ended its context was a cancellation. */
  lemma CanceledIff(events: seq<Event>, n: nat, t: Tid)
    requires n < |events|
    ensures CanceledAt(events, n, t) <==> EndedBy(events[..n], t) == Some(true)
  {
    hide Run, EndedBy;
    ContextEnds(events[..n], t);
  }

  // ---- what retires an upstream stops its timer ------------------------------------------------------

  /** An eviction retires the upstream it meant if it still lives, stops its timer and unmaps it; else nothing. */
  lemma EvictIff(events: seq<Event>, t: Tid)
    requires At(Run(Start, events), t).Evicting?
    ensures var s := Run(Start, events); var u := At(s, t).up; var p := Step(s, DoEvict(t)).pool;
      && u in s.pool.ups && u in p.ups && p.ups[u].closed && u !in p.byKey.Values
      && if s.pool.ups[u].closed then p == s.pool else p.ups[u].timer == NoTimer
  {
    hide Run, NoLeak, Balanced, Step, PoolOk, Evict;
    RunOk(events);
    var s := Run(Start, events);
    assert PcOk(s, s.threads[t], At(s, t));
    PoolAfter(s, DoEvict(t));
    EvictedIs(s.pool, At(s, t).up);
  }

  lemma EvictedIs(p: Pool, u: Uid)
    requires PoolOk(p) && u in p.ups
    ensures var q := Evict(p, u).1;
      && u in q.ups && q.ups[u].closed && u !in q.byKey.Values
      && if p.ups[u].closed then q == p else q.ups[u].timer == NoTimer
  {
    hide UpstreamOk, DialsApart;
  }

  /** A drain retires every upstream that lives and stops its timer. */
  lemma DrainStops(events: seq<Event>, t: Tid, u: Uid)
    requires At(Run(Start, events), t).Snapped? && u in Run(Start, events).pool.ups
    ensures var s := Run(Start, events); var p := Step(s, DrainPool(t)).pool;
      && u in p.ups && p.byKey == map[]
      && if s.pool.ups[u].closed then p.ups[u] == s.pool.ups[u] else p.ups[u].closed && p.ups[u].timer == NoTimer
  {
    hide Run, NoLeak, Balanced, Step, UpstreamOk, ThreadsOk, TunnelsOk;
    RunOk(events);
    PoolAfter(Run(Start, events), DrainPool(t));
  }

  /**
   A release returns one ref, and starts a grace anew exactly when it was the last of a live upstream; a timer that runs
   otherwise, or a retired upstream's, it leaves alone.
   */
  lemma ReleaseIff(events: seq<Event>, t: Tid)
    requires At(Run(Start, events), t).Releasing?
    ensures var s := Run(Start, events); var u := At(s, t).u;
      && u in s.pool.ups && s.pool.ups[u].refs >= 1
      && var (x, y) := (s.pool.ups[u], Step(s, DoRelease(t)).pool.ups[u]);
         && y.refs == x.refs - 1 && y.closed == x.closed
         && if x.refs == 1 && !x.closed then y.timer == Armed && y.grace == x.grace + 1
            else y.timer == x.timer && y.grace == x.grace
  {
    hide Run, Step, TunnelsOk, NoLeak, UpstreamOk, PoolOk, Balanced;
    RunOk(events);
    var s := Run(Start, events);
    assert PcOk(s, s.threads[t], At(s, t));
    PoolAfter(s, DoRelease(t));
    Entitled(s, t);
  }

  // ---- what a Shutdown counted --------------------------------------------------------------------

  /** Event e is goroutine t giving up the wait for tunnel e.x. */
  ghost predicate GivesUp(s: Surface, e: Event, t: Tid) {
    e.Await? && e.t == t && e.expired && At(s, t).Awaiting? && e.x in At(s, t).todo && e.x in s.tunnels
  }

  /** The tunnels whose wait goroutine t gave up. */
  ghost function GivenUp(events: seq<Event>, t: Tid): set<Tun> {
    if events == [] then {}
    else
      var front, e := events[..|events| - 1], events[|events| - 1];
      GivenUp(front, t) + if GivesUp(Run(Start, front), e, t) then {e.x} else {}
  }

  ghost predicate CountOk(pc: Pc, given: set<Tun>) {
    match pc
    case Awaiting(snap, todo, left) => todo <= snap && given <= snap - todo && left == |given|
    case Drained(snap, left) => given <= snap && left == |given|
    case _ => given == {}
  }

  /** A Shutdown counts each wait it gives up, and nothing else. */
  lemma CountMoves(s: Surface, e: Event, t: Tid, given: set<Tun>)
    requires Inv(s) && CountOk(At(s, t), given)
    ensures CountOk(At(Step(s, e), t), given + if GivesUp(s, e, t) then {e.x} else {})
  {
    hide Inv, Step, NextPc;
    PcAfter(s, e, t);
    assert given + {} == given;
    if e.t == t {
      NextIsOk(s, t);
      WaitMoves(s, e, given);
    }
  }

  /** What a goroutine does after a signal or a close is as its place says. */
  lemma NextIsOk(s: Surface, t: Tid)
    requires Inv(s)
    ensures At(s, t).Signalling? ==> AfterSignal(s.threads[t], At(s, t).next)
    ensures At(s, t).Closing? ==> AfterClose(At(s, t).next)
  {
    hide TunnelsOk, PoolOk, Balanced, NoLeak, LoopOk, WhyOk;
    if t in s.threads { assert PcOk(s, s.threads[t], At(s, t)); }
  }

  lemma WaitMoves(s: Surface, e: Event, given: set<Tun>)
    requires CountOk(At(s, e.t), given)
    requires At(s, e.t).Signalling? ==> AfterSignal(s.threads[e.t], At(s, e.t).next)
    requires At(s, e.t).Closing? ==> AfterClose(At(s, e.t).next)
    ensures CountOk(NextPc(s, e), given + if GivesUp(s, e, e.t) then {e.x} else {})
  {
    hide Step, NextPc;
    assert given + {} == given;
    if At(s, e.t).Awaiting? {
      WaitGoes(s, e);
      if GivesUp(s, e, e.t) { assert |given + {e.x}| == |given| + 1; }
    } else if At(s, e.t).Drained? {
      DrainedStays(s, e);
    } else {
      WaitComes(s, e);
    }
  }

  /** What a waiting Shutdown does next. */
  lemma WaitGoes(s: Surface, e: Event)
    requires At(s, e.t).Awaiting?
    ensures var Awaiting(snap, todo, left) := At(s, e.t);
      if e.Await? && e.x in todo && e.x in s.tunnels && (e.expired || TornDown(s.tunnels[e.x]))
      then NextPc(s, e) == Awaiting(snap, todo - {e.x}, if e.expired then left + 1 else left)
      else NextPc(s, e) == At(s, e.t) || NextPc(s, e) == Drained(snap, left)
  {
    hide Step;
  }

  lemma DrainedStays(s: Surface, e: Event)
    requires At(s, e.t).Drained?
    ensures NextPc(s, e) == At(s, e.t)
  {
    hide Step;
  }

  /** A Shutdown begins to wait for its whole snapshot, with nothing counted. */
  lemma WaitComes(s: Surface, e: Event)
    requires !At(s, e.t).Awaiting? && !At(s, e.t).Drained?
    requires At(s, e.t).Signalling? ==> AfterSignal(s.threads[e.t], At(s, e.t).next)
    requires At(s, e.t).Closing? ==> AfterClose(At(s, e.t).next)
    ensures !NextPc(s, e).Drained?
    ensures NextPc(s, e).Awaiting? ==> NextPc(s, e).todo == NextPc(s, e).snap && NextPc(s, e).left == 0
  {
    hide Step, Pass, DrainAll;
  }

  lemma NothingCounted()
    ensures CountOk(Idle, {})
  {
  }

  lemma {:induction false} RunCounts(events: seq<Event>, t: Tid)
    ensures CountOk(At(Run(Start, events), t), GivenUp(events, t))
    decreases |events|
  {
    hide Inv, Step, CountOk, GivesUp;
    if events == [] {
      assert At(Run(Start, events), t) == Idle;
      NothingCounted();
    } else {
      var front := events[..|events| - 1];
      RunCounts(front, t);
      RunOk(front);
      CountMoves(Run(Start, front), events[|events| - 1], t, GivenUp(front, t));
    }
  }

  /** A Shutdown returns exactly the number of its tunnels whose wait it gave up: 0 if it gave up none. */
  lemma LeftIsGivenUp(events: seq<Event>, t: Tid)
    requires At(Run(Start, events), t).Drained?
    ensures var Drained(snap, left) := At(Run(Start, events), t);
      GivenUp(events, t) <= snap && left == |GivenUp(events, t)| <= |snap|
  {
    hide Run, GivenUp;
    RunCounts(events, t);
    SubsetSize(GivenUp(events, t), At(Run(Start, events), t).snap);
  }
}
