/**
 What carries over from one reachable state to every later one, and what a call remembers of the dials it waited for.
 */
module SurfaceRuns {
  import opened Common
  import opened UpstreamPool
  import opened NoiseSurface
  import opened SurfaceInvariant
  import opened SurfaceSteps

  // ---- runs put together ----------------------------------------------------------------

  lemma RunNothing(s: Surface)
    ensures Run(s, []) == s
  {
  }

  lemma RunAppend(s: Surface, events: seq<Event>, e: Event)
    ensures Run(s, events + [e]) == Step(Run(s, events), e)
  {
    assert (events + [e])[..|events|] == events;
  }

  lemma {:induction false} RunConcat(s: Surface, a: seq<Event>, b: seq<Event>)
    ensures Run(s, a + b) == Run(Run(s, a), b)
    decreases |b|
  {
    if b == [] {
      assert a + b == a;
    } else {
      var front := b[..|b| - 1];
      assert (a + b)[..|a + b| - 1] == a + front;
      RunConcat(s, a, front);
    }
  }

  /** Every continuation of a reachable state is reachable. */
  lemma LaterOk(events: seq<Event>, more: seq<Event>)
    ensures Inv(Run(Run(Start, events), more))
  {
    hide Inv, Run;
    RunConcat(Start, events, more);
    RunOk(events + more);
  }

  // ---- latches ------------------------------------------------------------------------------

  /** A closed tunnel keeps its bindings; an open one only adds to them. */
  ghost predicate TunnelLasts(a: Tunnel, b: Tunnel) {
    && a.key == b.key && a.client == b.client && a.captured == b.captured
    && a.history <= b.history
    && (a.closed ==> b.closed && b.up == a.up && b.history == a.history)
    && (TornDown(a) ==> TornDown(b))
  }

  /** Retired upstreams stay retired, closed tunnels closed and bound as they were, and a drain is for good. */
  ghost predicate Lasts(s: Surface, s': Surface) {
    && PoolGrows(s.pool, s'.pool)
    && forall x :: x in s.tunnels ==> x in s'.tunnels && TunnelLasts(s.tunnels[x], s'.tunnels[x])
  }

  lemma LastsOn(a: Surface, b: Surface, c: Surface)
    requires Lasts(a, b) && Grows(b, c)
    ensures Lasts(a, c)
  {
    hide PoolGrows, TunnelLasts, TunnelGrows;
    PoolGrowsOn(a.pool, b.pool, c.pool);
    forall x | x in a.tunnels ensures x in c.tunnels && TunnelLasts(a.tunnels[x], c.tunnels[x]) {
      TunnelLastsOn(a.tunnels[x], b.tunnels[x], c.tunnels[x], b.pool.draining);
    }
  }

  lemma PoolGrowsOn(p: Pool, q: Pool, r: Pool)
    requires PoolGrows(p, q) && PoolGrows(q, r)
    ensures PoolGrows(p, r)
  {
    hide UpstreamGrows;
    forall u | u in p.ups ensures u in r.ups && UpstreamGrows(p.ups[u], r.ups[u]) {
      UpstreamGrowsOn(p.ups[u], q.ups[u], r.ups[u]);
    }
  }

  lemma UpstreamGrowsOn(x: Upstream, y: Upstream, z: Upstream)
    requires UpstreamGrows(x, y) && UpstreamGrows(y, z)
    ensures UpstreamGrows(x, z)
  {
  }

  lemma TunnelLastsOn(a: Tunnel, b: Tunnel, c: Tunnel, draining: bool)
    requires TunnelLasts(a, b) && TunnelGrows(b, c, draining)
    ensures TunnelLasts(a, c)
  {
  }

  lemma LastsHere(s: Surface)
    ensures Lasts(s, s)
  {
  }

  /** From any reachable state, whatever runs, nothing that has ended begins again. */
  lemma {:induction false} RunGrows(events: seq<Event>, more: seq<Event>)
    ensures Lasts(Run(Start, events), Run(Run(Start, events), more))
    decreases |more|
  {
    hide Inv, Step, Lasts, Grows;
    var s := Run(Start, events);
    if more == [] {
      LastsHere(s);
    } else {
      var front := more[..|more| - 1];
      RunGrows(events, front);
      LaterOk(events, front);
      StepKeeps(Run(s, front), more[|more| - 1]);
      LastsOn(s, Run(s, front), Run(s, more));
    }
  }

  // ---- what a call waited for ----------------------------------------------------------------

  /**
   The dials a goroutine's call went round behind: resolved, and if failed then only by their dialer's cancellation.
   */
  ghost predicate WaitedOk(p: Pool, waited: set<Uid>) {
    forall w :: w in waited ==> w in p.ups && !p.ups[w].dialing && (p.ups[w].dialErr ==> p.ups[w].dialCanceled)
  }

  lemma WaitedStays(p: Pool, q: Pool, waited: set<Uid>)
    requires WaitedOk(p, waited) && PoolGrows(p, q)
    ensures WaitedOk(q, waited)
  {
  }

  /** One event adds to what a goroutine waited for only when it saw the dial land, be drained or be canceled. */
  lemma WaitsAdd(s: Surface, e: Event, t: Tid)
    requires t in Step(s, e).threads
    ensures var before := if t in s.threads then s.threads[t].waited else {};
      var after := Step(s, e).threads[t].waited;
      || after <= before
      || (t in s.threads && At(s, t).Woken? && At(s, t).u in s.pool.ups && after == before + {At(s, t).u}
          && (s.pool.ups[At(s, t).u].dialErr ==> s.pool.ups[At(s, t).u].dialCanceled))
  {
    hide Pass, DialFails, DialLands, TryAcquire, Release, IdleClose, Evict, DrainAll, PhaseAfter;
  }

  lemma WaitedKeeps(s: Surface, e: Event, t: Tid)
    requires Inv(s) && t in Step(s, e).threads
    requires t in s.threads ==> WaitedOk(s.pool, s.threads[t].waited)
    ensures WaitedOk(Step(s, e).pool, Step(s, e).threads[t].waited)
  {
    hide Inv, Step, WaitedOk, Grows;
    WaitsAdd(s, e, t);
    StepKeeps(s, e);
    WaitedGrows(s, e, t);
  }

  lemma WaitedGrows(s: Surface, e: Event, t: Tid)
    requires Inv(s) && t in Step(s, e).threads && Grows(s, Step(s, e))
    requires t in s.threads ==> WaitedOk(s.pool, s.threads[t].waited)
    requires var before := if t in s.threads then s.threads[t].waited else {};
      var after := Step(s, e).threads[t].waited;
      || after <= before
      || (t in s.threads && At(s, t).Woken? && At(s, t).u in s.pool.ups && after == before + {At(s, t).u}
          && (s.pool.ups[At(s, t).u].dialErr ==> s.pool.ups[At(s, t).u].dialCanceled))
    ensures WaitedOk(Step(s, e).pool, Step(s, e).threads[t].waited)
  {
    hide Step, PoolGrows, TunnelGrows, TunnelsOk, PoolOk, Balanced, NoLeak;
    var after := Step(s, e).threads[t].waited;
    if t in s.threads { assert PcOk(s, s.threads[t], At(s, t)); }
    WaitedStays(s.pool, Step(s, e).pool, after);
  }

  /** In every run: no call ever goes round behind a dial that genuinely failed. */
  lemma {:induction false} RunWaited(events: seq<Event>, t: Tid)
    requires t in Run(Start, events).threads
    ensures WaitedOk(Run(Start, events).pool, Run(Start, events).threads[t].waited)
    decreases |events|
  {
    hide Inv, Step, WaitedOk;
    if events != [] {
      var front := events[..|events| - 1];
      RunOk(front);
      if t in Run(Start, front).threads { RunWaited(front, t); }
      WaitedKeeps(Run(Start, front), events[|events| - 1], t);
    }
  }

  // ---- whose failure a waiter is handed ---------------------------------------------------------

  /** The stretch of a call that waits for the dial of u, up to the error it may bring. */
  ghost predicate WaitsOn(pc: Pc, c: Call, u: Uid) {
    pc == Parked(c, u) || pc == Woken(c, u) || pc == Failed(c, DialFailed(u))
  }

  /** A goroutine is on that stretch because it just parked there, or was on it already; unless it dialed itself. */
  lemma WaitsFrom(s: Surface, e: Event, t: Tid, c: Call, u: Uid)
    requires Inv(s) && WaitsOn(At(Step(s, e), t), c, u)
    requires At(Step(s, e), t).Failed? ==> Step(s, e).threads[t].dialed == None
    ensures At(Step(s, e), t) == Parked(c, u)
      || (WaitsOn(At(s, t), c, u) && (At(s, t).Failed? ==> s.threads[t].dialed == None))
  {
    hide Step, TunnelsOk, PoolOk, Balanced, NoLeak, LoopOk, WhyOk;
    if t in s.threads { assert PcOk(s, s.threads[t], At(s, t)); }
    WaitsMove(s, e, t, c, u);
  }

  lemma WaitsMove(s: Surface, e: Event, t: Tid, c: Call, u: Uid)
    requires WaitsOn(At(Step(s, e), t), c, u)
    requires At(Step(s, e), t).Failed? ==> Step(s, e).threads[t].dialed == None
    requires At(s, t).Signalling? ==> AfterSignal(s.threads[t], At(s, t).next)
    requires At(s, t).Closing? ==> AfterClose(At(s, t).next)
    ensures At(Step(s, e), t) == Parked(c, u)
      || (WaitsOn(At(s, t), c, u) && (At(s, t).Failed? ==> s.threads[t].dialed == None))
  {
    hide Step, WaitsOn;
    if IsCall(e) { CallWaits(s, e, t, c, u); } else { OtherWaits(s, e, t, c, u); }
  }

  lemma CallWaits(s: Surface, e: Event, t: Tid, c: Call, u: Uid)
    requires IsCall(e) && WaitsOn(At(Step(s, e), t), c, u)
    requires At(Step(s, e), t).Failed? ==> Step(s, e).threads[t].dialed == None
    requires At(s, t).Signalling? ==> AfterSignal(s.threads[t], At(s, t).next)
    requires At(s, t).Closing? ==> AfterClose(At(s, t).next)
    ensures At(Step(s, e), t) == Parked(c, u)
      || (WaitsOn(At(s, t), c, u) && (At(s, t).Failed? ==> s.threads[t].dialed == None))
  {
    hide Pass, DialFails, DialLands, Signal, CloseConn, TryAcquire, Release, IdleClose, Evict, BeginDrain, DrainAll;
    hide PhaseAfter, Swap, MarkHealFailed, MarkClosed, InRegistry, TornDown, NewTunnel, Fire;
  }

  lemma OtherWaits(s: Surface, e: Event, t: Tid, c: Call, u: Uid)
    requires !IsCall(e) && WaitsOn(At(Step(s, e), t), c, u)
    requires At(Step(s, e), t).Failed? ==> Step(s, e).threads[t].dialed == None
    requires At(s, t).Signalling? ==> AfterSignal(s.threads[t], At(s, t).next)
    requires At(s, t).Closing? ==> AfterClose(At(s, t).next)
    ensures At(Step(s, e), t) == Parked(c, u)
      || (WaitsOn(At(s, t), c, u) && (At(s, t).Failed? ==> s.threads[t].dialed == None))
  {
    hide Pass, DialFails, DialLands, Signal, CloseConn, TryAcquire, Release, IdleClose, Evict, BeginDrain, DrainAll;
    hide PhaseAfter, Swap, MarkHealFailed, MarkClosed, InRegistry, TornDown, NewTunnel, Fire;
  }

  /** A call handed another's dial failure parked on that very dial, and has waited for it ever since. */
  lemma {:induction false} ParkedFirst(events: seq<Event>, t: Tid, c: Call, u: Uid) returns (n: nat)
    requires WaitsOn(At(Run(Start, events), t), c, u)
    requires At(Run(Start, events), t).Failed? ==> Run(Start, events).threads[t].dialed == None
    ensures n <= |events| && At(Run(Start, events[..n]), t) == Parked(c, u)
    ensures forall m :: n <= m <= |events| ==> WaitsOn(At(Run(Start, events[..m]), t), c, u)
    decreases |events|
  {
    hide Inv, Step;
    assert events[..|events|] == events;
    if At(Run(Start, events), t) == Parked(c, u) {
      n := |events|;
    } else {
      var k := |events| - 1;
      RunOk(events[..k]);
      WaitsFrom(Run(Start, events[..k]), events[k], t, c, u);
      n := ParkedFirst(events[..k], t, c, u);
      forall m | n <= m <= |events| ensures WaitsOn(At(Run(Start, events[..m]), t), c, u) {
        if m <= k { assert events[..k][..m] == events[..m]; }
      }
      assert events[..k][..n] == events[..n];
    }
  }

  // ---- callbacks outstanding ---------------------------------------------------------------------

  /** Some idle callback of u has fired and not yet had the lock. */
  ghost predicate Outstanding(s: Surface, u: Uid) {
    exists t :: t in s.threads && s.threads[t].pc.Callback? && s.threads[t].pc.u == u
  }

  /** A goroutine reaches a callback by firing the pending timer, or by finishing something that was to end there. */
  lemma CallbackFrom(s: Surface, e: Event, t: Tid)
    requires At(Step(s, e), t).Callback? && At(Step(s, e), t) != At(s, t)
    ensures var pc, u := At(s, t), At(Step(s, e), t).u;
      || ((pc.Signalling? || pc.Closing?) && pc.next.Callback?)
      || (u in Step(s, e).pool.ups && Step(s, e).pool.ups[u].timer == Fired)
  {
    hide Step;
    if e.DoFire? { FiringCalls(s, e, t); } else { OthersDoNotCall(s, e, t); }
  }

  lemma FiringCalls(s: Surface, e: Event, t: Tid)
    requires e.DoFire? && At(Step(s, e), t).Callback? && At(Step(s, e), t) != At(s, t)
    ensures var u := At(Step(s, e), t).u; u in Step(s, e).pool.ups && Step(s, e).pool.ups[u].timer == Fired
  {
  }

  lemma OthersDoNotCall(s: Surface, e: Event, t: Tid)
    requires !e.DoFire? && At(Step(s, e), t).Callback? && At(Step(s, e), t) != At(s, t)
    ensures (At(s, t).Signalling? || At(s, t).Closing?) && At(s, t).next.Callback?
  {
    hide Step, NextPc, PassPc, EvictPc;
    PcAfter(s, e, t);
    if e.t == t { NextIsNoCall(s, e); }
  }

  lemma NextIsNoCall(s: Surface, e: Event)
    requires !e.DoFire? && NextPc(s, e).Callback? && NextPc(s, e) != At(s, e.t)
    ensures (At(s, e.t).Signalling? || At(s, e.t).Closing?) && At(s, e.t).next.Callback?
  {
    hide Step;
  }

  /** Nothing is ever to end in a callback, so one appears only when the pending timer fires. */
  lemma NewCallback(s: Surface, e: Event, t: Tid)
    requires Inv(s) && At(Step(s, e), t).Callback? && At(Step(s, e), t) != At(s, t)
    ensures var u := At(Step(s, e), t).u; u in Step(s, e).pool.ups && Step(s, e).pool.ups[u].timer == Fired
  {
    hide Step, TunnelsOk, PoolOk, Balanced, NoLeak, LoopOk, WhyOk, DrainedOk;
    CallbackFrom(s, e, t);
    if t in s.threads { assert PcOk(s, s.threads[t], At(s, t)); }
  }

  /** A step that leaves u's timer pending added no callback of u. */
  lemma OutstandingBack(s: Surface, e: Event, u: Uid)
    requires Inv(s) && Outstanding(Step(s, e), u)
    requires u in Step(s, e).pool.ups && Step(s, e).pool.ups[u].timer == Armed
    ensures Outstanding(s, u)
  {
    hide Inv, Step;
    var t :| t in Step(s, e).threads && Step(s, e).threads[t].pc.Callback? && Step(s, e).threads[t].pc.u == u;
    if At(Step(s, e), t) != At(s, t) { NewCallback(s, e, t); }
    assert At(s, t) == At(Step(s, e), t);
  }

  /** While the grace armed at some state is still pending, every callback of u is older than it. */
  lemma {:induction false} OlderCallbacks(events: seq<Event>, more: seq<Event>, u: Uid)
    requires u in Run(Start, events).pool.ups && u in Run(Run(Start, events), more).pool.ups
    requires var (x, y) := (Run(Start, events).pool.ups[u], Run(Run(Start, events), more).pool.ups[u]);
      y.grace == x.grace && y.timer == Armed
    requires Outstanding(Run(Run(Start, events), more), u)
    ensures Outstanding(Run(Start, events), u)
    decreases |more|
  {
    hide Inv, Step, Outstanding, TunnelGrows, TunnelLasts;
    if more != [] {
      var s, front, e := Run(Start, events), more[..|more| - 1], more[|more| - 1];
      RunGrows(events, front);
      LaterOk(events, front);
      StepKeeps(Run(s, front), e);
      OutstandingBack(Run(s, front), e, u);
      OlderCallbacks(events, front, u);
    }
  }
}
