/**
 Heals that outlive what they were for: of a tunnel closed meanwhile, or off an upstream the tunnel has left. Two
 promises about them (sidescale/noise/tunnel.go:249-250) fail in some interleavings; here is exactly when.
 */
module SurfaceHeals {
  import opened Common
  import opened UpstreamPool
  import opened NoiseSurface
  import opened SurfaceInvariant
  import opened SurfaceSteps
  import opened SurfaceRuns

  // ---- a heal on its way ----------------------------------------------------------------------

  ghost function GoalOf(c: Call): Option<(Tun, Uid)> {
    if c.goal.ForHeal? then Some((c.goal.x, c.goal.dead)) else None
  }

  /** The tunnel and the dead upstream of a heal that is past its check and has no fresh upstream yet, or has failed. */
  ghost function HealOf(pc: Pc): Option<(Tun, Uid)> {
    match pc
    case Evicting(x, up) => Some((x, up))
    case Passing(c) => GoalOf(c)
    case Parked(c, _) => GoalOf(c)
    case Woken(c, _) => GoalOf(c)
    case Dialing(c, _) => GoalOf(c)
    case Failed(c, _) => GoalOf(c)
    case Signalling(_, next) => HealOf(next)
    case Closing(_, next) => HealOf(next)
    case _ => None
  }

  /** A heal is on its way because it was already, or because it just passed its check. */
  lemma HealFrom(s: Surface, e: Event, t: Tid)
    requires HealOf(At(Step(s, e), t)).Some?
    ensures var heal := HealOf(At(Step(s, e), t));
      || HealOf(At(s, t)) == heal
      || (&& e == ForwardFailed(t) && heal.value.0 in s.tunnels
          && !s.tunnels[heal.value.0].closed && s.tunnels[heal.value.0].up == heal.value.1)
  {
    hide Step, HealOf;
    if e.DialDone? { DialHealFrom(s, e, t); } else { OtherHealFrom(s, e, t); }
  }

  lemma DialHealFrom(s: Surface, e: Event, t: Tid)
    requires e.DialDone? && HealOf(At(Step(s, e), t)).Some?
    ensures HealOf(At(s, t)) == HealOf(At(Step(s, e), t))
  {
    hide DialFails, DialLands;
    if e.t == t && At(s, t).Dialing? {
      var Dialing(c, u) := At(s, t);
      assert HealOf(Closing(u, Failed(c, ShuttingDown))) == GoalOf(c);
    }
  }

  lemma OtherHealFrom(s: Surface, e: Event, t: Tid)
    requires !e.DialDone? && HealOf(At(Step(s, e), t)).Some?
    ensures var heal := HealOf(At(Step(s, e), t));
      || HealOf(At(s, t)) == heal
      || (&& e == ForwardFailed(t) && heal.value.0 in s.tunnels
          && !s.tunnels[heal.value.0].closed && s.tunnels[heal.value.0].up == heal.value.1)
  {
    hide Step, HealOf;
    if MovesPool(e) { PoolHealFrom(s, e, t); } else { LocalHealFrom(s, e, t); }
  }

  lemma PoolHealFrom(s: Surface, e: Event, t: Tid)
    requires MovesPool(e) && !e.DialDone? && HealOf(At(Step(s, e), t)).Some?
    ensures HealOf(At(s, t)) == HealOf(At(Step(s, e), t))
  {
    hide Pass, DialFails, DialLands, Signal, CloseConn, TryAcquire, Release, IdleClose, Evict, BeginDrain, DrainAll;
    hide PhaseAfter, Swap, MarkHealFailed, MarkClosed, InRegistry, TornDown, NewTunnel, Fire;
  }

  lemma LocalHealFrom(s: Surface, e: Event, t: Tid)
    requires !MovesPool(e) && HealOf(At(Step(s, e), t)).Some?
    ensures var heal := HealOf(At(Step(s, e), t));
      || HealOf(At(s, t)) == heal
      || (&& e == ForwardFailed(t) && heal.value.0 in s.tunnels
          && !s.tunnels[heal.value.0].closed && s.tunnels[heal.value.0].up == heal.value.1)
  {
    hide Pass, DialFails, DialLands, Signal, CloseConn, TryAcquire, Release, IdleClose, Evict, BeginDrain, DrainAll;
    hide PhaseAfter, Swap, MarkHealFailed, MarkClosed, InRegistry, TornDown, NewTunnel, Fire;
  }

  // ---- closed tunnels -----------------------------------------------------------------------------

  /** In getOrCreateUpstream for a heal of x. */
  ghost predicate Seeks(pc: Pc, x: Tun) {
    (pc.Passing? || pc.Parked? || pc.Woken? || pc.Dialing?) && pc.c.goal.ForHeal? && pc.c.goal.x == x
  }

  /** There, or past the check and on the way there. */
  ghost predicate Entering(pc: Pc, x: Tun) {
    Seeks(pc, x) || (pc.Evicting? && pc.x == x) || (pc.Closing? && Seeks(pc.next, x))
  }

  lemma EnteringFrom(s: Surface, e: Event, t: Tid, x: Tun)
    requires Inv(s) && x in s.tunnels && s.tunnels[x].closed && Entering(At(Step(s, e), t), x)
    ensures Entering(At(s, t), x)
  {
    hide Step, TunnelsOk, PoolOk, Balanced, NoLeak, LoopOk, WhyOk;
    if t in s.threads { assert PcOk(s, s.threads[t], At(s, t)); }
    EnteringMoves(s, e, t, x);
  }

  lemma EnteringMoves(s: Surface, e: Event, t: Tid, x: Tun)
    requires x in s.tunnels && s.tunnels[x].closed && Entering(At(Step(s, e), t), x)
    requires At(s, t).Signalling? ==> AfterSignal(s.threads[t], At(s, t).next)
    requires At(s, t).Closing? ==> AfterClose(At(s, t).next)
    ensures Entering(At(s, t), x)
  {
    hide Step, Entering;
    if MovesPool(e) { PoolEnteringMoves(s, e, t, x); } else { LocalEnteringMoves(s, e, t, x); }
  }

  lemma PoolEnteringMoves(s: Surface, e: Event, t: Tid, x: Tun)
    requires MovesPool(e)
    requires x in s.tunnels && s.tunnels[x].closed && Entering(At(Step(s, e), t), x)
    requires At(s, t).Signalling? ==> AfterSignal(s.threads[t], At(s, t).next)
    requires At(s, t).Closing? ==> AfterClose(At(s, t).next)
    ensures Entering(At(s, t), x)
  {
    hide Pass, DialFails, DialLands, Signal, CloseConn, TryAcquire, Release, IdleClose, Evict, BeginDrain, DrainAll;
    hide PhaseAfter, Swap, MarkHealFailed, MarkClosed, InRegistry, TornDown, NewTunnel, Fire;
  }

  lemma LocalEnteringMoves(s: Surface, e: Event, t: Tid, x: Tun)
    requires !MovesPool(e)
    requires x in s.tunnels && s.tunnels[x].closed && Entering(At(Step(s, e), t), x)
    requires At(s, t).Signalling? ==> AfterSignal(s.threads[t], At(s, t).next)
    requires At(s, t).Closing? ==> AfterClose(At(s, t).next)
    ensures Entering(At(s, t), x)
  {
    hide Pass, DialFails, DialLands, Signal, CloseConn, TryAcquire, Release, IdleClose, Evict, BeginDrain, DrainAll;
    hide PhaseAfter, Swap, MarkHealFailed, MarkClosed, InRegistry, TornDown, NewTunnel, Fire;
  }

  /** Once x is closed, only a heal already past its check can ever be looking for an upstream for x. */
  lemma {:induction false} OnlyOldHeals(events: seq<Event>, more: seq<Event>, t: Tid, x: Tun)
    requires x in Run(Start, events).tunnels && Run(Start, events).tunnels[x].closed
    requires Entering(At(Run(Run(Start, events), more), t), x)
    ensures Entering(At(Run(Start, events), t), x)
    decreases |more|
  {
    hide Inv, Step, Entering, PoolGrows;
    if more != [] {
      var front := more[..|more| - 1];
      RunGrows(events, front);
      LaterOk(events, front);
      EnteringFrom(Run(Run(Start, events), front), more[|more| - 1], t, x);
      OnlyOldHeals(events, front, t, x);
    }
  }

  /**
   "A closed tunnel never re-dials" fails exactly when, at the close, some heal of the tunnel is past its check: then,
   and only then, can a goroutine be looking for an upstream for it afterwards.
   */
  lemma RedialsIff(events: seq<Event>, x: Tun)
    requires x in Run(Start, events).tunnels && Run(Start, events).tunnels[x].closed
    ensures (exists more, t :: Seeks(At(Run(Run(Start, events), more), t), x))
      <==> (exists t :: Entering(At(Run(Start, events), t), x))
  {
    hide Inv, Run, Entering, Seeks;
    var s := Run(Start, events);
    if exists more, t :: Seeks(At(Run(s, more), t), x) {
      var more, t :| Seeks(At(Run(s, more), t), x);
      SeekersEnter(At(Run(s, more), t), x);
      OnlyOldHeals(events, more, t, x);
    }
    if exists t :: Entering(At(s, t), x) {
      var t :| Entering(At(s, t), x);
      RunOk(events);
      var more := GoesOn(s, t, x);
      assert Seeks(At(Run(s, more), t), x);
    }
  }

  lemma SeekersEnter(pc: Pc, x: Tun)
    requires Seeks(pc, x)
    ensures Entering(pc, x)
  {
  }

  /** A heal past its check gets to look for an upstream if nothing else runs. */
  lemma GoesOn(s: Surface, t: Tid, x: Tun) returns (more: seq<Event>)
    requires Inv(s) && Entering(At(s, t), x)
    ensures Seeks(At(Run(s, more), t), x)
  {
    hide Inv, Step, Run;
    RunNothing(s);
    if Seeks(At(s, t), x) {
      more := [];
    } else if At(s, t).Closing? {
      more := CloseGoesOn(s, t, x);
    } else {
      var s1 := Step(s, DoEvict(t));
      StepStays(s, DoEvict(t));
      EvictGoesOn(s, t);
      assert [DoEvict(t)] == [] + [DoEvict(t)];
      RunAppend(s, [], DoEvict(t));
      if Seeks(At(s1, t), x) {
        more := [DoEvict(t)];
      } else {
        var rest := CloseGoesOn(s1, t, x);
        more := [DoEvict(t)] + rest;
        RunConcat(s, [DoEvict(t)], rest);
      }
    }
  }

  lemma CloseGoesOn(s: Surface, t: Tid, x: Tun) returns (more: seq<Event>)
    requires Inv(s) && At(s, t).Closing? && Seeks(At(s, t).next, x)
    ensures Seeks(At(Run(s, more), t), x)
  {
    hide Inv, Run;
    more := [DoClose(t)];
    Entitled(s, t);
    assert [DoClose(t)] == [] + [DoClose(t)];
    RunAppend(s, [], DoClose(t));
    RunNothing(s);
  }

  /** The heal's eviction goes on to its first pass, closing the connection first if that is left to do. */
  lemma EvictGoesOn(s: Surface, t: Tid)
    requires Inv(s) && At(s, t).Evicting?
    ensures var Evicting(x, up) := At(s, t); var pc := At(Step(s, DoEvict(t)), t);
      && HealOf(pc) == HealOf(At(s, t)) == Some((x, up)) && Step(s, DoEvict(t)).tunnels == s.tunnels
      && ((Seeks(pc, x) && pc.Passing?) || (pc.Closing? && Seeks(pc.next, x) && pc.next.Passing?))
  {
    hide PoolOk, TunnelsOk, Balanced, NoLeak, Evict;
    assert PcOk(s, s.threads[t], At(s, t));
  }

  // ---- one warning per episode ----------------------------------------------------------------------

  /** A heal of x off u, u being what x is bound to, reports its failed dial. */
  ghost predicate OwnFailure(s: Surface, e: Event, x: Tun, u: Uid) {
    e.HealFailed? && At(s, e.t).Failed? && GoalOf(At(s, e.t).c) == Some((x, u))
  }

  ghost predicate BoundTo(s: Surface, x: Tun, u: Uid) {
    x in s.tunnels && s.tunnels[x].up == u
  }

  /** The first failed heal off u since s, which goroutine f is about to report, will not be logged. */
  ghost predicate Unlogged(s: Surface, more: seq<Event>, f: Tid, x: Tun, u: Uid) {
    var z := Run(s, more);
    && BoundTo(z, x, u) && z.tunnels[x].healFailed
    && At(z, f).Failed? && GoalOf(At(z, f).c) == Some((x, u))
    && forall i :: 0 <= i < |more| ==> !OwnFailure(Run(s, more[..i]), more[i], x, u)
  }

  /** The mark that mutes further warnings is set only by a failed heal of that tunnel. */
  lemma MarkFrom(s: Surface, e: Event, x: Tun)
    requires x in s.tunnels && x in Step(s, e).tunnels && !s.tunnels[x].healFailed && Step(s, e).tunnels[x].healFailed
    ensures e.HealFailed? && At(s, e.t).Failed? && At(s, e.t).c.goal.ForHeal? && At(s, e.t).c.goal.x == x
  {
    hide Step;
    if MovesTunnels(e) { TunnelMarkFrom(s, e, x); } else { TunnelsRest(s, e); }
  }

  lemma TunnelMarkFrom(s: Surface, e: Event, x: Tun)
    requires x in s.tunnels && x in Step(s, e).tunnels && !s.tunnels[x].healFailed && Step(s, e).tunnels[x].healFailed
    requires MovesTunnels(e)
    ensures e.HealFailed? && At(s, e.t).Failed? && At(s, e.t).c.goal.ForHeal? && At(s, e.t).c.goal.x == x
  {
    hide PhaseAfter, InRegistry, TornDown;
  }

  /** Between two states that find x bound to u it was never bound to anything else. */
  lemma StillBound(events: seq<Event>, middle: seq<Event>, more: seq<Event>, x: Tun, u: Uid)
    requires BoundTo(Run(Start, events), x, u) && BoundTo(Run(Run(Start, events), middle + more), x, u)
    ensures BoundTo(Run(Run(Start, events), middle), x, u)
  {
    hide Inv, Run, PoolGrows;
    var s := Run(Start, events);
    RunGrows(events, middle);
    RunConcat(Start, events, middle);
    RunConcat(s, middle, more);
    RunGrows(events + middle, more);
    RunOk(events);
    LaterOk(events, middle);
    LaterOk(events, middle + more);
    LastBinding(s, x);
    LastBinding(Run(s, middle), x);
    LastBinding(Run(s, middle + more), x);
    var a, b, c := s.tunnels[x].history, Run(s, middle).tunnels[x].history, Run(s, middle + more).tunnels[x].history;
    assert a <= b <= c && a[|a| - 1] == c[|c| - 1] == u;
    assert c[|a| - 1] == u;
  }

  lemma LastBinding(s: Surface, x: Tun)
    requires Inv(s) && x in s.tunnels
    ensures var h := s.tunnels[x].history; h != [] && h[|h| - 1] == s.tunnels[x].up && NoDuplicates(h)
  {
    hide ThreadsOk, PoolOk, NoLeak, Balanced;
    TunnelIsOk(s, x);
  }

  /** While x stays bound to u, a heal of x off anything else was past its check from the start. */
  lemma {:induction false} StaleHeals(events: seq<Event>, more: seq<Event>, t: Tid, x: Tun, d: Uid, u: Uid)
    requires BoundTo(Run(Start, events), x, u) && BoundTo(Run(Run(Start, events), more), x, u) && d != u
    requires HealOf(At(Run(Run(Start, events), more), t)) == Some((x, d))
    ensures HealOf(At(Run(Start, events), t)) == Some((x, d))
    decreases |more|
  {
    hide Inv, Step, HealOf;
    if more != [] {
      var front, e := more[..|more| - 1], more[|more| - 1];
      assert more == front + [e];
      StillBound(events, front, [e], x, u);
      HealFrom(Run(Run(Start, events), front), e, t);
      StaleHeals(events, front, t, x, d, u);
    }
  }

  /**
   If x's mark got set without a failed heal off u, some heal off another upstream was past its check at the start.
   */
  lemma {:induction false} MarkedByStale(events: seq<Event>, more: seq<Event>, x: Tun, u: Uid) returns (t: Tid, d: Uid)
    requires BoundTo(Run(Start, events), x, u) && !Run(Start, events).tunnels[x].healFailed
    requires BoundTo(Run(Run(Start, events), more), x, u) && Run(Run(Start, events), more).tunnels[x].healFailed
    requires forall i :: 0 <= i < |more| ==> !OwnFailure(Run(Run(Start, events), more[..i]), more[i], x, u)
    ensures d != u && HealOf(At(Run(Start, events), t)) == Some((x, d))
    decreases |more|
  {
    hide Inv, Step, HealOf, OwnFailure;
    var s, front, e := Run(Start, events), more[..|more| - 1], more[|more| - 1];
    assert more == front + [e];
    StillBound(events, front, [e], x, u);
    var z := Run(s, front);
    if z.tunnels[x].healFailed {
      forall i | 0 <= i < |front| ensures !OwnFailure(Run(s, front[..i]), front[i], x, u) {
        assert front[..i] == more[..i];
      }
      t, d := MarkedByStale(events, front, x, u);
    } else {
      MarkFrom(z, e, x);
      t, d := e.t, At(z, e.t).c.goal.dead;
      assert !OwnFailure(z, e, x, u);
      NotOwn(z, e, x, u);
      StaleHeals(events, front, t, x, d, u);
    }
  }

  lemma NotOwn(s: Surface, e: Event, x: Tun, u: Uid)
    requires e.HealFailed? && At(s, e.t).Failed? && At(s, e.t).c.goal.ForHeal? && At(s, e.t).c.goal.x == x
    requires !OwnFailure(s, e, x, u)
    ensures At(s, e.t).c.goal.dead != u && HealOf(At(s, e.t)) == Some((x, At(s, e.t).c.goal.dead))
  {
  }

  // ---- driving a heal to failure ----------------------------------------------------------------------

  function Rank(pc: Pc): nat {
    match pc
    case Failed(_, _) => 0
    case Woken(_, _) => 2
    case Dialing(_, _) => 3
    case Evicting(_, _) => 3
    case Signalling(_, next) => 1 + Rank(next)
    case Closing(_, next) => 1 + Rank(next)
    case _ => 1
  }

  /** How far goroutine t's heal is from failing, once a drain has begun and its context has ended. */
  ghost function Distance(s: Surface, t: Tid): nat {
    Rank(At(s, t)) + One(!s.pool.draining) + One(t in s.threads && s.threads[t].ctx == Live)
  }

  /** A number not in s. */
  lemma Fresh(s: set<nat>) returns (n: nat)
    ensures n !in s
  {
    n := UpperBound(s);
  }

  lemma {:induction false} UpperBound(s: set<nat>) returns (n: nat)
    ensures forall m :: m in s ==> m < n
    decreases |s|
  {
    if s == {} {
      n := 0;
    } else {
      var m :| m in s;
      n := UpperBound(s - {m});
      n := if m < n then n else m + 1;
      assert forall k :: k in s ==> k == m || k in s - {m};
    }
  }

  /** One step that takes the heal of t closer to failing, and reports no failure. */
  lemma Advance(s: Surface, t: Tid) returns (e: Event)
    requires Inv(s) && HealOf(At(s, t)).Some? && !At(s, t).Failed?
    ensures !e.HealFailed? && Step(s, e).tunnels == s.tunnels
    ensures HealOf(At(Step(s, e), t)) == HealOf(At(s, t)) && Distance(Step(s, e), t) < Distance(s, t)
  {
    hide Inv, Step, HealOf, Distance;
    match At(s, t)
    case Evicting(_, _) => e := DoEvict(t); EvictGoesOn(s, t); EvictCloser(s, t);
    case Signalling(_, _) => e := DoSignal(t); Entitled(s, t); SignalCloser(s, t);
    case Closing(_, _) => e := DoClose(t); Entitled(s, t); CloseCloser(s, t);
    case Woken(_, _) => e := Observe(t); Entitled(s, t); WokenIs(s, t); ObserveCloser(s, t);
    case Dialing(_, _) => e := DialDone(t, false); Entitled(s, t); DialCloser(s, t);
    case Parked(_, _) =>
      e := if s.threads[t].ctx == Live then EndCtx(t, true) else Abandon(t);
      ParkedCloser(s, t, e);
    case Passing(_) =>
      if s.pool.draining {
        var spare := Fresh(s.pool.ups.Keys);
        e := DoPass(t, spare);
        PassCloser(s, t, spare);
      } else {
        var d := Fresh(s.threads.Keys);
        e := DoBeginDrain(d);
        DrainCloser(s, t, d);
      }
    case _ => HealIsSomewhere(At(s, t));
  }

  lemma HealIsSomewhere(pc: Pc)
    requires HealOf(pc).Some?
    ensures
      || pc.Evicting? || pc.Signalling? || pc.Closing? || pc.Woken?
      || pc.Dialing? || pc.Parked? || pc.Passing? || pc.Failed?
  {
  }

  lemma WokenIs(s: Surface, t: Tid)
    requires t in s.threads && At(s, t).Woken? && PcOk(s, s.threads[t], At(s, t))
    ensures At(s, t).u in s.pool.ups
  {
  }

  ghost predicate Closer(s: Surface, e: Event, t: Tid) {
    && Step(s, e).tunnels == s.tunnels
    && HealOf(At(Step(s, e), t)) == HealOf(At(s, t)) && Distance(Step(s, e), t) < Distance(s, t)
  }

  lemma EvictCloser(s: Surface, t: Tid)
    requires Inv(s) && At(s, t).Evicting? && Step(s, DoEvict(t)).tunnels == s.tunnels
    requires HealOf(At(Step(s, DoEvict(t)), t)) == HealOf(At(s, t))
    requires var pc := At(Step(s, DoEvict(t)), t); pc.Passing? || (pc.Closing? && pc.next.Passing?)
    ensures Closer(s, DoEvict(t), t)
  {
    hide Inv, HealOf;
    EvictKeepsCtx(s, t);
    assert Rank(At(Step(s, DoEvict(t)), t)) <= 2;
  }

  lemma EvictKeepsCtx(s: Surface, t: Tid)
    requires At(s, t).Evicting?
    ensures var s' := Step(s, DoEvict(t));
      t in s.threads && t in s'.threads && s'.threads[t].ctx == s.threads[t].ctx && s'.pool.draining == s.pool.draining
  {
  }

  lemma SignalCloser(s: Surface, t: Tid)
    requires At(s, t).Signalling? && At(s, t).u in s.pool.ups
    ensures Closer(s, DoSignal(t), t)
  {
  }

  lemma CloseCloser(s: Surface, t: Tid)
    requires At(s, t).Closing? && At(s, t).u in s.pool.ups
    ensures Closer(s, DoClose(t), t)
  {
  }

  lemma ObserveCloser(s: Surface, t: Tid)
    requires At(s, t).Woken? && At(s, t).u in s.pool.ups
    ensures Closer(s, Observe(t), t)
  {
  }

  lemma DialCloser(s: Surface, t: Tid)
    requires At(s, t).Dialing? && At(s, t).u in s.pool.ups
    ensures Closer(s, DialDone(t, false), t)
  {
    hide Unmap;
    var Dialing(c, u) := At(s, t);
    var failed := Failed(c, DialFailed(u));
    assert Rank(failed) == 0 && HealOf(failed) == GoalOf(c);
    assert At(Step(s, DialDone(t, false)), t) == Signalling(u, failed);
  }

  lemma ParkedCloser(s: Surface, t: Tid, e: Event)
    requires At(s, t).Parked? && e == if s.threads[t].ctx == Live then EndCtx(t, true) else Abandon(t)
    ensures Closer(s, e, t)
  {
  }

  lemma PassCloser(s: Surface, t: Tid, spare: Uid)
    requires At(s, t).Passing? && s.pool.draining && spare !in s.pool.ups
    ensures Closer(s, DoPass(t, spare), t)
  {
  }

  lemma DrainCloser(s: Surface, t: Tid, d: Tid)
    requires t in s.threads && d !in s.threads && !s.pool.draining
    ensures Closer(s, DoBeginDrain(d), t)
  {
  }

  /** A heal on its way can always be driven to failure, without another's failure being reported meanwhile. */
  lemma {:induction false} DriveToFailure(s: Surface, t: Tid) returns (more: seq<Event>)
    requires Inv(s) && HealOf(At(s, t)).Some?
    ensures At(Run(s, more), t).Failed? && HealOf(At(Run(s, more), t)) == HealOf(At(s, t))
    ensures Run(s, more).tunnels == s.tunnels && Inv(Run(s, more)) && forall e :: e in more ==> !e.HealFailed?
    decreases Distance(s, t)
  {
    hide Inv, Step, Run, HealOf, Distance;
    RunNothing(s);
    if At(s, t).Failed? {
      more := [];
    } else {
      var e := Advance(s, t);
      StepStays(s, e);
      var rest := DriveToFailure(Step(s, e), t);
      more := [e] + rest;
      RunFrom(s, e, rest);
    }
  }

  lemma RunFrom(s: Surface, e: Event, rest: seq<Event>)
    ensures Run(s, [e] + rest) == Run(Step(s, e), rest)
  {
    hide Step;
    assert [e] == [] + [e];
    RunAppend(s, [], e);
    RunConcat(s, [e], rest);
  }

  /** What a healer's win at the compare-and-swap leaves behind. */
  lemma SwapWins(s: Surface, t: Tid)
    requires Inv(s) && At(s, t).Got? && At(s, t).c.goal.ForHeal? && At(s, t).c.goal.x in s.tunnels
    requires !s.tunnels[At(s, t).c.goal.x].closed && s.tunnels[At(s, t).c.goal.x].up == At(s, t).c.goal.dead
    ensures var x := At(s, t).c.goal.x; var s' := Step(s, HealSwap(t));
      BoundTo(s', x, At(s, t).u) && !s'.tunnels[x].healFailed && !s'.tunnels[x].closed
  {
    hide Inv;
  }

  /** Reporting a failed heal mutes the tunnel's further warnings and changes nothing else about it. */
  lemma ReportMarks(s: Surface, t: Tid, x: Tun)
    requires At(s, t).Failed? && At(s, t).c.goal.ForHeal? && At(s, t).c.goal.x == x && x in s.tunnels
    ensures var s' := Step(s, HealFailed(t));
      x in s'.tunnels && s'.tunnels[x].healFailed && s'.tunnels[x].up == s.tunnels[x].up
      && s'.tunnels[x].closed == s.tunnels[x].closed
  {
  }

  /** A fresh goroutine whose forward over x fails gets past the check of an open tunnel. */
  lemma FreshForward(s: Surface, f: Tid, x: Tun)
    requires f !in s.threads && x in s.tunnels && !s.tunnels[x].closed
    ensures var s' := Step(Step(s, Forward(f, x)), ForwardFailed(f));
      s'.tunnels == s.tunnels && HealOf(At(s', f)) == Some((x, s.tunnels[x].up))
  {
  }

  /** Events that report no failed heal report none off u. */
  lemma NoReports(s: Surface, more: seq<Event>, x: Tun, u: Uid)
    requires forall e :: e in more ==> !e.HealFailed?
    ensures forall i :: 0 <= i < |more| ==> !OwnFailure(Run(s, more[..i]), more[i], x, u)
  {
    hide Run;
    forall i | 0 <= i < |more| ensures !OwnFailure(Run(s, more[..i]), more[i], x, u) {
      assert more[i] in more;
    }
  }

  lemma SilentAfter(s: Surface, a: seq<Event>, b: seq<Event>, x: Tun, u: Uid)
    requires forall i :: 0 <= i < |a| ==> !OwnFailure(Run(s, a[..i]), a[i], x, u)
    requires forall i :: 0 <= i < |b| ==> !OwnFailure(Run(Run(s, a), b[..i]), b[i], x, u)
    ensures forall i :: 0 <= i < |a + b| ==> !OwnFailure(Run(s, (a + b)[..i]), (a + b)[i], x, u)
  {
    hide Run, OwnFailure;
    forall i | 0 <= i < |a + b| ensures !OwnFailure(Run(s, (a + b)[..i]), (a + b)[i], x, u) {
      if i < |a| {
        assert (a + b)[..i] == a[..i];
      } else {
        var j := i - |a|;
        assert (a + b)[..i] == a + b[..j];
        RunConcat(s, a, b[..j]);
      }
    }
  }

  /** A stale heal driven to failure and reported leaves x marked before any heal off u has failed. */
  lemma StaleReport(s: Surface, t: Tid, x: Tun, d: Uid, u: Uid) returns (more: seq<Event>)
    requires Inv(s) && BoundTo(s, x, u) && !s.tunnels[x].closed && d != u && HealOf(At(s, t)) == Some((x, d))
    ensures var z := Run(s, more); Inv(z) && BoundTo(z, x, u) && z.tunnels[x].healFailed && !z.tunnels[x].closed
    ensures forall i :: 0 <= i < |more| ==> !OwnFailure(Run(s, more[..i]), more[i], x, u)
  {
    hide Inv, Step, Run, OwnFailure;
    var drive := DriveToFailure(s, t);
    var z := Run(s, drive);
    FailedGoal(z, t, x, d);
    ReportMarks(z, t, x);
    StepStays(z, HealFailed(t));
    more := drive + [HealFailed(t)];
    RunAppend(s, drive, HealFailed(t));
    NoReports(s, drive, x, u);
    assert forall i :: 0 <= i < 1 ==> !OwnFailure(Run(z, [HealFailed(t)][..i]), [HealFailed(t)][i], x, u) by {
      RunNothing(z);
      assert [HealFailed(t)][..0] == [];
      NotAnOwn(z, t, x, d, u);
    }
    SilentAfter(s, drive, [HealFailed(t)], x, u);
  }

  lemma FailedGoal(s: Surface, t: Tid, x: Tun, d: Uid)
    requires At(s, t).Failed? && HealOf(At(s, t)) == Some((x, d))
    ensures At(s, t).c.goal == ForHeal(x, d) && GoalOf(At(s, t).c) == Some((x, d))
  {
  }

  lemma NotAnOwn(s: Surface, t: Tid, x: Tun, d: Uid, u: Uid)
    requires At(s, t).Failed? && GoalOf(At(s, t).c) == Some((x, d)) && d != u
    ensures !OwnFailure(s, HealFailed(t), x, u)
  {
  }

  /** A marked tunnel's own first failure can follow, unlogged. */
  lemma OwnFailureFollows(s: Surface, x: Tun, u: Uid) returns (more: seq<Event>, f: Tid)
    requires Inv(s) && BoundTo(s, x, u) && s.tunnels[x].healFailed && !s.tunnels[x].closed
    ensures Unlogged(s, more, f, x, u)
  {
    hide Inv, Step, Run, OwnFailure, HealOf;
    f := Fresh(s.threads.Keys);
    FreshForward(s, f, x);
    StepStays(s, Forward(f, x));
    StepStays(Step(s, Forward(f, x)), ForwardFailed(f));
    var z := Step(Step(s, Forward(f, x)), ForwardFailed(f));
    var drive := DriveToFailure(z, f);
    more := [Forward(f, x)] + ([ForwardFailed(f)] + drive);
    RunFrom(s, Forward(f, x), [ForwardFailed(f)] + drive);
    RunFrom(Step(s, Forward(f, x)), ForwardFailed(f), drive);
    FailedGoal(Run(s, more), f, x, u);
    NoReports(s, more, x, u);
  }

  /**
   The promise of one warning per dead-upstream episode, at the swap that begins an episode on u: some later
   interleaving leaves the episode's first failed heal unlogged exactly when, at the swap, another heal of the tunnel
   is past its check on an upstream the tunnel has left.
   */
  lemma SilentEpisodeIff(events: seq<Event>, t: Tid)
    requires var s := Run(Start, events);
      && At(s, t).Got? && At(s, t).c.goal.ForHeal? && At(s, t).c.goal.x in s.tunnels
      && !s.tunnels[At(s, t).c.goal.x].closed && s.tunnels[At(s, t).c.goal.x].up == At(s, t).c.goal.dead
    ensures var s := Run(Start, events); var x, u := At(s, t).c.goal.x, At(s, t).u;
      var s' := Run(Start, events + [HealSwap(t)]);
      (exists more, f :: Unlogged(s', more, f, x, u))
      <==> (exists t0, d :: d != u && HealOf(At(s', t0)) == Some((x, d)))
  {
    hide Inv, Step, Run, HealOf, Unlogged;
    var s := Run(Start, events);
    var x, u := At(s, t).c.goal.x, At(s, t).u;
    var begun := events + [HealSwap(t)];
    RunAppend(Start, events, HealSwap(t));
    RunOk(events);
    RunOk(begun);
    SwapWins(s, t);
    var s' := Run(Start, begun);
    if exists more, f :: Unlogged(s', more, f, x, u) {
      var more, f :| Unlogged(s', more, f, x, u);
      MutedByStale(begun, more, f, x, u);
    }
    if exists t0, d :: d != u && HealOf(At(s', t0)) == Some((x, d)) {
      var t0, d :| d != u && HealOf(At(s', t0)) == Some((x, d));
      var f, more := StaleMutes(s', t0, x, d, u);
    }
  }

  lemma MutedByStale(events: seq<Event>, more: seq<Event>, f: Tid, x: Tun, u: Uid)
    requires BoundTo(Run(Start, events), x, u) && !Run(Start, events).tunnels[x].healFailed
    requires Unlogged(Run(Start, events), more, f, x, u)
    ensures exists t0, d :: d != u && HealOf(At(Run(Start, events), t0)) == Some((x, d))
  {
    hide Run, HealOf, OwnFailure;
    var t0, d := MarkedByStale(events, more, x, u);
  }

  lemma StaleMutes(s: Surface, t0: Tid, x: Tun, d: Uid, u: Uid) returns (f: Tid, more: seq<Event>)
    requires Inv(s) && BoundTo(s, x, u) && !s.tunnels[x].closed && d != u && HealOf(At(s, t0)) == Some((x, d))
    ensures Unlogged(s, more, f, x, u)
  {
    hide Inv, Run, HealOf, OwnFailure;
    var marks := StaleReport(s, t0, x, d, u);
    var rest;
    rest, f := OwnFailureFollows(Run(s, marks), x, u);
    more := marks + rest;
    RunConcat(s, marks, rest);
    SilentAfter(s, marks, rest, x, u);
  }
}
