/** What the invariant means for callers, tunnels, connections and the shutdown drain, over every run. */
module SurfaceTheorems {
  import opened Common
  import opened UpstreamPool
  import opened NoiseSurface
  import opened SurfaceInvariant
  import opened SurfaceSteps
  import opened SurfaceRuns

  // ---- reference counts --------------------------------------------------------------

  /** The goroutines that hold a ref on u: a dialer, a caller handed u, a cleanup or a release still to run. */
  ghost function RefHolders(s: Surface, u: Uid): set<Tid> {
    set t | t in s.threads && RefTok(u) in Tokens(s.threads[t].pc)
  }

  ghost function BoundTunnels(s: Surface, u: Uid): set<Tun> {
    set x | x in s.tunnels && !s.tunnels[x].closed && s.tunnels[x].up == u
  }

  lemma HeldIs(s: Surface, u: Uid)
    ensures Held(s, RefTok(u)) == |RefHolders(s, u)| + |BoundTunnels(s, u)|
  {
    assert Matching(s.threads, (h: Thread) => RefTok(u) in Tokens(h.pc)) == RefHolders(s, u);
    assert Matching(s.tunnels, (tn: Tunnel) => !tn.closed && tn.up == RefTok(u).u) == BoundTunnels(s, u);
  }

  /** In every interleaving an upstream that landed counts exactly its outstanding holders. */
  lemma RefsAreHolders(events: seq<Event>, u: Uid)
    requires Installed(Run(Start, events), u)
    ensures var s := Run(Start, events); s.pool.ups[u].refs == |RefHolders(s, u)| + |BoundTunnels(s, u)|
  {
    hide PcOk, TunnelOk, PoolOk;
    var s := Run(Start, events);
    RunOk(events);
    HeldIs(s, u);
    assert Held(s, RefTok(u)) == Supply(s, RefTok(u));
  }

  // ---- one live upstream per key --------------------------------------------------------

  /** The key map is exactly the set of upstreams not yet closed, so a key has at most one; nor do dials share a key. */
  lemma OneLivePerKey(events: seq<Event>, k: PoolKey, u: Uid)
    ensures var p := Run(Start, events).pool;
      k in p.byKey && p.byKey[k] == u <==> u in p.ups && p.ups[u].key == k && !p.ups[u].closed
    ensures var p := Run(Start, events).pool;
      forall v :: u in p.ups && v in p.ups && p.ups[u].key == p.ups[v].key && p.ups[u].dialing && p.ups[v].dialing ==>
          u == v
  {
    hide PcOk, TunnelOk, Balanced, NoLeak, UpstreamOk;
    RunOk(events);
  }

  /** A pass that becomes the dialer takes a free place in the key map: it never overwrites an entry. */
  lemma DialerTakesFreeKey(events: seq<Event>, t: Tid, spare: Uid)
    requires At(Run(Start, events), t).Passing? && spare !in Run(Start, events).pool.ups
    ensures var s := Run(Start, events);
      At(Step(s, DoPass(t, spare)), t).Dialing? ==> At(s, t).c.key !in s.pool.byKey
  {
    hide PcOk, TunnelOk, Balanced, NoLeak, UpstreamOk, PoolGrows;
    RunOk(events);
    PassKeeps(Run(Start, events).pool, At(Run(Start, events), t).c.key, spare);
  }

  // ---- connections and idle timers --------------------------------------------------------

  ghost function Owing(s: Surface, tok: Token): set<Tid> {
    set t | t in s.threads && tok in Tokens(s.threads[t].pc)
  }

  lemma OwingIs(s: Surface, tok: Token)
    requires !tok.RefTok?
    ensures Held(s, tok) == |Owing(s, tok)|
  {
    assert Matching(s.threads, (h: Thread) => tok in Tokens(h.pc)) == Owing(s, tok);
  }

  /** Every open connection is pooled with nobody about to close it, or retired with exactly one goroutine about to. */
  lemma ConnsAccounted(events: seq<Event>, u: Uid)
    requires u in Run(Start, events).pool.ups
    ensures var s := Run(Start, events);
      match s.pool.ups[u].conn
      case Open => if s.pool.ups[u].closed then |Owing(s, CloseTok(u))| == 1
                   else s.pool.ups[u].uc && s.pool.ups[u].key in s.pool.byKey && s.pool.byKey[s.pool.ups[u].key] == u
                        && Owing(s, CloseTok(u)) == {}
      case _ => Owing(s, CloseTok(u)) == {}
  {
    hide PcOk, TunnelOk, NoLeak;
    var s := Run(Start, events);
    RunOk(events);
    OwingIs(s, CloseTok(u));
    assert Held(s, CloseTok(u)) == Supply(s, CloseTok(u));
    assert UpstreamOk(s.pool.ups[u], s.pool.draining);
  }

  /** A live upstream nobody holds has its grace timer pending, or that timer's callback on its way to the lock. */
  lemma IdleIsGuarded(events: seq<Event>, u: Uid)
    requires Installed(Run(Start, events), u)
    requires !Run(Start, events).pool.ups[u].closed
    requires RefHolders(Run(Start, events), u) == {} && BoundTunnels(Run(Start, events), u) == {}
    ensures var s := Run(Start, events);
      s.pool.ups[u].timer == Armed || HasCallback(s, u, s.pool.ups[u].grace)
  {
    hide PcOk, TunnelOk, PoolOk, Balanced;
    RefsAreHolders(events, u);
    RunOk(events);
  }

  /** A callback, stale or not, never closes an upstream somebody holds. */
  lemma CallbackSparesHolders(events: seq<Event>, t: Tid)
    requires At(Run(Start, events), t).Callback?
    ensures var s := Run(Start, events); var u := At(s, t).u; var s' := Step(s, IdleCallback(t));
      && u in s.pool.ups
      && (s'.pool.ups[u].closed && !s.pool.ups[u].closed ==> RefHolders(s, u) == {} && BoundTunnels(s, u) == {})
  {
    hide TunnelOk, PoolOk, Balanced, NoLeak, PcOk, Run;
    RunOk(events);
    CallbackFacts(Run(Start, events), t);
    RefsAreHolders(events, At(Run(Start, events), t).u);
  }

  ghost predicate ClosesNow(s: Surface, t: Tid) {
    && At(s, t).Callback? && At(s, t).u in s.pool.ups
    && !s.pool.ups[At(s, t).u].closed && Step(s, IdleCallback(t)).pool.ups[At(s, t).u].closed
  }

  /** A callback about to close u although the grace of its last release, number grace, has not elapsed. */
  ghost predicate CutsShort(s: Surface, t: Tid, u: Uid, grace: nat) {
    ClosesNow(s, t) && At(s, t).u == u && s.pool.ups[u].timer == Armed && s.pool.ups[u].grace == grace
  }

  /**
   The last holder of a live upstream is about to release it. The grace that this release starts can be cut short,
   by some later interleaving, exactly when a callback of an earlier grace is already out at that moment.
   */
  lemma GraceKeptIff(events: seq<Event>, t: Tid)
    requires var s := Run(Start, events);
      && At(s, t).Releasing? && At(s, t).u in s.pool.ups
      && !s.pool.ups[At(s, t).u].closed && s.pool.ups[At(s, t).u].refs == 1
    ensures var s := Run(Start, events); var u := At(s, t).u; var grace := s.pool.ups[u].grace + 1;
      (exists more, t' :: CutsShort(Run(Run(Start, events + [DoRelease(t)]), more), t', u, grace))
      <==> Outstanding(s, u)
  {
    hide Inv, Run, CutsShort, Outstanding, Step;
    var s := Run(Start, events);
    var u, grace := At(s, t).u, s.pool.ups[At(s, t).u].grace + 1;
    var released := events + [DoRelease(t)];
    RunAppend(Start, events, DoRelease(t));
    if exists more, t' :: CutsShort(Run(Run(Start, released), more), t', u, grace) {
      var more, t' :| CutsShort(Run(Run(Start, released), more), t', u, grace);
      OnlyOldCallbacks(events, t, more, t');
    }
    if Outstanding(s, u) {
      RunOk(events);
      var t' := OldCallbackCuts(s, t);
      RunNothing(Run(Start, released));
      assert CutsShort(Run(Run(Start, released), []), t', u, grace);
    }
  }

  /**
   Every way to close a live upstream before its pending grace has elapsed: a callback left over from an earlier grace,
   an eviction by a heal that saw its connection unusable before the tunnel let go of it, or a drain.
   */
  lemma ClosedEarlyIff(events: seq<Event>, e: Event, u: Uid)
    requires var s := Run(Start, events); u in s.pool.ups && !s.pool.ups[u].closed && s.pool.ups[u].timer == Armed
    ensures var s := Run(Start, events); var pc := At(s, e.t);
      && u in Step(s, e).pool.ups
      && (Step(s, e).pool.ups[u].closed <==>
            || (e.IdleCallback? && pc.Callback? && pc.u == u)
            || (e.DoEvict? && pc.Evicting? && pc.up == u)
            || (e.DrainPool? && pc.Snapped?))
      && (e.IdleCallback? && pc.Callback? && pc.u == u ==> pc.grace < s.pool.ups[u].grace)
  {
    hide Inv, Run, PcOk, PoolOk, TunnelOk;
    var s := Run(Start, events);
    RunOk(events);
    UpstreamIsOk(s, u);
    StepGrows(s, e);
    if e.t in s.threads { Entitled(s, e.t); }
    if At(s, e.t).Callback? { CallbackFacts(s, e.t); CallbackAge(s, e.t); }
    if At(s, e.t).Evicting? { EvictingOn(s, e.t); }
    IsPooled(s, u);
    ClosesWhen(s, e, u);
  }

  lemma CallbackAge(s: Surface, t: Tid)
    requires Inv(s) && At(s, t).Callback?
    ensures At(s, t).u in s.pool.ups && At(s, t).grace <= s.pool.ups[At(s, t).u].grace
  {
    hide TunnelsOk, Balanced, PoolOk, NoLeak;
    assert PcOk(s, s.threads[t], At(s, t));
  }

  lemma EvictingOn(s: Surface, t: Tid)
    requires Inv(s) && At(s, t).Evicting?
    ensures At(s, t).x in s.tunnels && At(s, t).up in s.pool.ups
  {
    hide TunnelsOk, Balanced, PoolOk, NoLeak;
    assert PcOk(s, s.threads[t], At(s, t));
  }

  lemma IsPooled(s: Surface, u: Uid)
    requires Inv(s) && u in s.pool.ups && !s.pool.ups[u].closed
    ensures u in s.pool.byKey.Values
  {
    hide ThreadsOk, TunnelsOk, Balanced, NoLeak, UpstreamOk;
  }

  /** The steps that close u, once every goroutine is known to be where it may act. */
  lemma ClosesWhen(s: Surface, e: Event, u: Uid)
    requires u in s.pool.ups && !s.pool.ups[u].closed && s.pool.ups[u].refs <= 0 && !s.pool.ups[u].dialing
    requires u in s.pool.byKey.Values
    requires var pc := At(s, e.t);
      && (pc.Dialing? ==> pc.u in s.pool.ups && s.pool.ups[pc.u].dialing)
      && (pc.Callback? ==> pc.u in s.pool.ups)
      && (pc.Evicting? ==> pc.x in s.tunnels && pc.up in s.pool.ups)
    ensures var pc := At(s, e.t);
      u in Step(s, e).pool.ups ==>
        (Step(s, e).pool.ups[u].closed <==>
            || (e.IdleCallback? && pc.Callback? && pc.u == u)
            || (e.DoEvict? && pc.Evicting? && pc.up == u)
            || (e.DrainPool? && pc.Snapped?))
  {
    hide Step, NextPool;
    PoolAfter(s, e);
    if e.IdleCallback? || e.DoEvict? || e.DrainPool? { ClosersClose(s, e, u); } else { OthersSpare(s, e, u); }
  }

  lemma ClosersClose(s: Surface, e: Event, u: Uid)
    requires u in s.pool.ups && !s.pool.ups[u].closed && s.pool.ups[u].refs <= 0 && u in s.pool.byKey.Values
    requires At(s, e.t).Callback? ==> At(s, e.t).u in s.pool.ups
    requires At(s, e.t).Evicting? ==> At(s, e.t).x in s.tunnels && At(s, e.t).up in s.pool.ups
    requires e.IdleCallback? || e.DoEvict? || e.DrainPool?
    ensures var pc, p := At(s, e.t), NextPool(s, e);
      u in p.ups ==>
        (p.ups[u].closed <==>
            || (e.IdleCallback? && pc.Callback? && pc.u == u)
            || (e.DoEvict? && pc.Evicting? && pc.up == u)
            || (e.DrainPool? && pc.Snapped?))
  {
    hide Unmap, Step;
  }

  lemma OthersSpare(s: Surface, e: Event, u: Uid)
    requires u in s.pool.ups && !s.pool.ups[u].closed && !s.pool.ups[u].dialing
    requires At(s, e.t).Dialing? ==> At(s, e.t).u in s.pool.ups && s.pool.ups[At(s, e.t).u].dialing
    requires !e.IdleCallback? && !e.DoEvict? && !e.DrainPool?
    ensures u in NextPool(s, e).ups && !NextPool(s, e).ups[u].closed
  {
    hide Step, Unmap, IdleClose, Evict, DrainAll;
  }

  /** Once everything has come to rest, nothing is left open. */
  lemma QuietMeansClosed(events: seq<Event>, u: Uid)
    requires var s := Run(Start, events);
      && (forall t :: t in s.threads ==> s.threads[t].pc.Idle? || s.threads[t].pc.Drained?)
      && (forall x :: x in s.tunnels ==> s.tunnels[x].closed)
      && (forall v :: v in s.pool.ups ==> s.pool.ups[v].timer != Armed)
    requires u in Run(Start, events).pool.ups
    ensures Run(Start, events).pool.ups[u].conn != Open
  {
    hide Inv, Run;
    var s := Run(Start, events);
    ConnsAccounted(events, u);
    NobodyOwes(s, u);
    if s.pool.ups[u].conn == Open { IdleIsGuarded(events, u); }
  }

  lemma NobodyOwes(s: Surface, u: Uid)
    requires forall t :: t in s.threads ==> s.threads[t].pc.Idle? || s.threads[t].pc.Drained?
    requires forall x :: x in s.tunnels ==> s.tunnels[x].closed
    ensures Owing(s, CloseTok(u)) == {} && RefHolders(s, u) == {} && BoundTunnels(s, u) == {}
  {
  }

  lemma ReleaseStarts(s: Surface, t: Tid)
    requires At(s, t).Releasing? && At(s, t).u in s.pool.ups
    requires !s.pool.ups[At(s, t).u].closed && s.pool.ups[At(s, t).u].refs == 1
    ensures var u := At(s, t).u; var s' := Step(s, DoRelease(t));
      && s'.threads == s.threads[t := s.threads[t].(pc := Idle)] && u in s'.pool.ups
      && s'.pool.ups[u] == s.pool.ups[u].(refs := 0, timer := Armed, grace := s.pool.ups[u].grace + 1)
  {
  }

  /** Whatever cuts the new grace short was out before the release. */
  lemma OnlyOldCallbacks(events: seq<Event>, t: Tid, more: seq<Event>, t': Tid)
    requires var s := Run(Start, events);
      && At(s, t).Releasing? && At(s, t).u in s.pool.ups
      && !s.pool.ups[At(s, t).u].closed && s.pool.ups[At(s, t).u].refs == 1
    requires var s := Run(Start, events); var u := At(s, t).u;
      CutsShort(Run(Run(Start, events + [DoRelease(t)]), more), t', u, s.pool.ups[u].grace + 1)
    ensures Outstanding(Run(Start, events), At(Run(Start, events), t).u)
  {
    hide Inv, Run, Step;
    var s := Run(Start, events);
    var u := At(s, t).u;
    var released := events + [DoRelease(t)];
    RunAppend(Start, events, DoRelease(t));
    ReleaseStarts(s, t);
    var after := Run(Run(Start, released), more);
    assert t' in after.threads && after.threads[t'].pc.Callback? && after.threads[t'].pc.u == u;
    OlderCallbacks(released, more, u);
    var t0 :| t0 in Run(Start, released).threads && Run(Start, released).threads[t0].pc.Callback?
      && Run(Start, released).threads[t0].pc.u == u;
    assert t0 in s.threads && s.threads[t0].pc.Callback? && s.threads[t0].pc.u == u;
  }

  /** A callback out at the release cuts the new grace short by taking the lock next. */
  lemma OldCallbackCuts(s: Surface, t: Tid) returns (t': Tid)
    requires Inv(s) && At(s, t).Releasing? && At(s, t).u in s.pool.ups
    requires !s.pool.ups[At(s, t).u].closed && s.pool.ups[At(s, t).u].refs == 1 && Outstanding(s, At(s, t).u)
    ensures CutsShort(Step(s, DoRelease(t)), t', At(s, t).u, s.pool.ups[At(s, t).u].grace + 1)
  {
    hide Inv, Step;
    var u := At(s, t).u;
    t' :| t' in s.threads && s.threads[t'].pc.Callback? && s.threads[t'].pc.u == u;
    ReleaseStarts(s, t);
    CallbackCloses(Step(s, DoRelease(t)), t');
  }

  lemma CallbackCloses(s: Surface, t: Tid)
    requires At(s, t).Callback? && At(s, t).u in s.pool.ups
    requires !s.pool.ups[At(s, t).u].closed && s.pool.ups[At(s, t).u].refs <= 0
    ensures ClosesNow(s, t)
  {
  }

  lemma CallbackFacts(s: Surface, t: Tid)
    requires Inv(s) && At(s, t).Callback?
    ensures Installed(s, At(s, t).u)
    ensures At(s, t).grace == s.pool.ups[At(s, t).u].grace ==> s.pool.ups[At(s, t).u].timer != Armed
  {
    hide TunnelsOk, Balanced, PoolOk, NoLeak;
    assert PcOk(s, s.threads[t], At(s, t));
  }

  // ---- tunnels and heals ------------------------------------------------------------------------

  /** A tunnel's bridge is its upstream's, it was never bound to the same upstream twice, it left only retired ones. */
  lemma BindingsAreFresh(events: seq<Event>, x: Tun)
    requires x in Run(Start, events).tunnels
    ensures var s := Run(Start, events); var tn := s.tunnels[x];
      && tn.bridge == tn.up && tn.history != [] && tn.up == tn.history[|tn.history| - 1] && NoDuplicates(tn.history)
      && (forall i :: 0 <= i < |tn.history| ==> tn.history[i] in s.pool.ups && s.pool.ups[tn.history[i]].key == tn.key)
      && (forall i :: 0 <= i < |tn.history| - 1 ==> s.pool.ups[tn.history[i]].closed)
  {
    hide ThreadsOk, Balanced, NoLeak, PoolOk, Run;
    RunOk(events);
    TunnelIsOk(Run(Start, events), x);
  }

  function Swaps(tn: Tunnel): int {
    |tn.history| - 1
  }

  /** Heal-failure warnings never outnumber the swaps by more than one. */
  lemma WarningsBounded(events: seq<Event>, x: Tun)
    requires x in Run(Start, events).tunnels
    ensures var tn := Run(Start, events).tunnels[x]; tn.warnings <= Swaps(tn) + 1
  {
    hide ThreadsOk, Balanced, NoLeak, PoolOk, Run;
    RunOk(events);
    TunnelIsOk(Run(Start, events), x);
  }

  lemma OnlyHealRebinds(s: Surface, e: Event, x: Tun)
    requires x in s.tunnels
    ensures x in Step(s, e).tunnels
    ensures Step(s, e).tunnels[x].up != s.tunnels[x].up ==>
      && e.HealSwap? && At(s, e.t).Got? && At(s, e.t).c.goal == ForHeal(x, s.tunnels[x].up)
      && !s.tunnels[x].closed && Step(s, e).tunnels[x].up == At(s, e.t).u
  {
    hide Step;
    if e.HealSwap? { SwapRebinds(s, e, x); } else { OthersKeepBinding(s, e, x); }
  }

  lemma SwapRebinds(s: Surface, e: Event, x: Tun)
    requires x in s.tunnels && e.HealSwap?
    ensures x in Step(s, e).tunnels
    ensures Step(s, e).tunnels[x].up != s.tunnels[x].up ==>
      && At(s, e.t).Got? && At(s, e.t).c.goal == ForHeal(x, s.tunnels[x].up)
      && !s.tunnels[x].closed && Step(s, e).tunnels[x].up == At(s, e.t).u
  {
  }

  lemma OthersKeepBinding(s: Surface, e: Event, x: Tun)
    requires x in s.tunnels && !e.HealSwap?
    ensures x in Step(s, e).tunnels && Step(s, e).tunnels[x].up == s.tunnels[x].up
  {
    hide Step;
    if MovesTunnels(e) { MoversKeepBinding(s, e, x); } else { TunnelsRest(s, e); }
  }

  lemma MoversKeepBinding(s: Surface, e: Event, x: Tun)
    requires x in s.tunnels && MovesTunnels(e) && !e.HealSwap?
    ensures x in Step(s, e).tunnels && Step(s, e).tunnels[x].up == s.tunnels[x].up
  {
    hide PhaseAfter, Swap, InRegistry, TornDown;
  }
  /** One step rebinds a tunnel only to an upstream it never had, and never once it is closed. */
  lemma RebindsOnlyForward(events: seq<Event>, e: Event, x: Tun)
    requires x in Run(Start, events).tunnels
    ensures var s := Run(Start, events); var s' := Step(s, e);
      && x in s'.tunnels
      && (s'.tunnels[x].up != s.tunnels[x].up ==>
            && !s.tunnels[x].closed && s'.tunnels[x].up !in s.tunnels[x].history
            && s.tunnels[x].up in s.pool.ups && s.pool.ups[s.tunnels[x].up].closed)
  {
    hide Balanced, NoLeak, PoolOk, TunnelOk, Step;
    RunOk(events);
    var s := Run(Start, events);
    OnlyHealRebinds(s, e, x);
    if Step(s, e).tunnels[x].up != s.tunnels[x].up {
      assert PcOk(s, s.threads[e.t], At(s, e.t));
    }
  }

  /**
   A heal's compare-and-swap conserves refs. The winner trades with the tunnel: it gives up its hold on the fresh
   upstream and takes over the tunnel's on the dead one. The loser keeps the hold it has. Either way the goroutine is
   left with exactly one release to make, no count changes, and no other upstream's holders move.
   */
  lemma HealReturnsOneRef(events: seq<Event>, t: Tid)
    requires At(Run(Start, events), t).Got? && At(Run(Start, events), t).c.goal.ForHeal?
    ensures var s := Run(Start, events); var s' := Step(s, HealSwap(t));
      var Got(c, u) := At(s, t); var ForHeal(x, dead) := c.goal;
      && x in s.tunnels && s'.pool == s.pool
      && var won := !s.tunnels[x].closed && s.tunnels[x].up == dead;
         && At(s', t) == Releasing(if won then dead else u)
         && (won ==>
              && u != dead
              && t in RefHolders(s, u) && RefHolders(s', u) == RefHolders(s, u) - {t}
              && x !in BoundTunnels(s, u) && BoundTunnels(s', u) == BoundTunnels(s, u) + {x}
              && t !in RefHolders(s, dead) && RefHolders(s', dead) == RefHolders(s, dead) + {t}
              && x in BoundTunnels(s, dead) && BoundTunnels(s', dead) == BoundTunnels(s, dead) - {x})
         && (forall v :: !won || (v != u && v != dead) ==>
              RefHolders(s', v) == RefHolders(s, v) && BoundTunnels(s', v) == BoundTunnels(s, v))
  {
    hide Inv, Run, RefHolders, BoundTunnels, Step;
    var s := Run(Start, events);
    RunOk(events);
    SwapIsNew(s, t);
    var x, dead := At(s, t).c.goal.x, At(s, t).c.goal.dead;
    BoundIsRecorded(s, x);
    SwapLands(s, t);
    forall v: Uid { HoldersTrade(s, t, v); }
  }

  lemma BoundIsRecorded(s: Surface, x: Tun)
    requires Inv(s) && x in s.tunnels
    ensures s.tunnels[x].up in s.tunnels[x].history
  {
    hide ThreadsOk, PoolOk, NoLeak, Balanced;
    TunnelIsOk(s, x);
  }

  lemma SwapLands(s: Surface, t: Tid)
    requires At(s, t).Got? && At(s, t).c.goal.ForHeal? && At(s, t).c.goal.x in s.tunnels
    ensures var s' := Step(s, HealSwap(t)); var Got(c, u) := At(s, t);
      var won := !s.tunnels[c.goal.x].closed && s.tunnels[c.goal.x].up == c.goal.dead;
      && s'.pool == s.pool && t in s.threads
      && s'.threads == s.threads[t := s.threads[t].(pc := Releasing(if won then c.goal.dead else u))]
      && s'.tunnels == s.tunnels[c.goal.x := Swap(s.tunnels[c.goal.x], c.goal.dead, u).1]
  {
  }

  /** What one swap does to the holders of v. */
  lemma HoldersTrade(s: Surface, t: Tid, v: Uid)
    requires At(s, t).Got? && At(s, t).c.goal.ForHeal? && At(s, t).c.goal.x in s.tunnels
    requires var tn := s.tunnels[At(s, t).c.goal.x]; tn.up == At(s, t).c.goal.dead ==> At(s, t).u != tn.up
    ensures var s' := Step(s, HealSwap(t)); var Got(c, u) := At(s, t); var ForHeal(x, dead) := c.goal;
      if !s.tunnels[x].closed && s.tunnels[x].up == dead && (v == u || v == dead) then
        if v == u then
          && t in RefHolders(s, v) && RefHolders(s', v) == RefHolders(s, v) - {t}
          && x !in BoundTunnels(s, v) && BoundTunnels(s', v) == BoundTunnels(s, v) + {x}
        else
          && t !in RefHolders(s, v) && RefHolders(s', v) == RefHolders(s, v) + {t}
          && x in BoundTunnels(s, v) && BoundTunnels(s', v) == BoundTunnels(s, v) - {x}
      else RefHolders(s', v) == RefHolders(s, v) && BoundTunnels(s', v) == BoundTunnels(s, v)
  {
    hide Step;
    SwapLands(s, t);
  }

  // ---- what a waiting caller can count on ---------------------------------------------------------

  /**
   A parked caller is always going to be woken: its dial is pending, or its signal is given or owed by one goroutine.
   */
  lemma ParkedWillWake(events: seq<Event>, t: Tid)
    requires At(Run(Start, events), t).Parked?
    ensures var s := Run(Start, events); var u := At(s, t).u;
      && u in s.pool.ups
      && (if s.pool.ups[u].dialing then |Owing(s, DialTok(u))| == 1
          else s.pool.ups[u].signalled || |Owing(s, SignalTok(u))| == 1)
  {
    hide TunnelOk, PoolOk, NoLeak;
    RunOk(events);
    var s, u := Run(Start, events), At(Run(Start, events), t).u;
    assert PcOk(s, s.threads[t], At(s, t));
    OwingIs(s, DialTok(u));
    OwingIs(s, SignalTok(u));
    assert Held(s, DialTok(u)) == Supply(s, DialTok(u));
    assert Held(s, SignalTok(u)) == Supply(s, SignalTok(u));
  }

  /** A caller is refused only for its own context, a drain, its own dial, or a coalesced dial that genuinely failed. */
  lemma ErrorsHaveCause(events: seq<Event>, t: Tid)
    requires At(Run(Start, events), t).Failed?
    ensures var s := Run(Start, events); var th := s.threads[t];
      match th.pc.why
      case CtxDone => th.ctx != Live
      case ShuttingDown => s.pool.draining
      case DialFailed(u) =>
        && u in s.pool.ups && s.pool.ups[u].dialErr && s.pool.ups[u].key == th.pc.c.key
        && (th.dialed == Some(u) || (th.dialed == None && (!s.pool.ups[u].dialCanceled || th.ctx != Live)))
  {
    hide TunnelOk, PoolOk, NoLeak, Balanced;
    RunOk(events);
    assert PcOk(Run(Start, events), Run(Start, events).threads[t], At(Run(Start, events), t));
  }

  /**
   The failure a caller that did not dial is handed is that of the dial it parked on, and has waited for ever since.
   */
  lemma InheritedFromItsWait(events: seq<Event>, t: Tid)
    requires At(Run(Start, events), t).Failed? && At(Run(Start, events), t).why.DialFailed?
    requires Run(Start, events).threads[t].dialed == None
    ensures var Failed(c, why) := At(Run(Start, events), t);
      exists n :: 0 <= n <= |events| && At(Run(Start, events[..n]), t) == Parked(c, why.u)
        && forall m :: n <= m <= |events| ==> WaitsOn(At(Run(Start, events[..m]), t), c, why.u)
  {
    hide Run;
    var Failed(c, why) := At(Run(Start, events), t);
    var n := ParkedFirst(events, t, c, why.u);
  }

  /**
   A genuine dial failure costs one dial for all its waiters. In every run a call goes round the loop, to wait or to
   dial again, only behind dials that landed, were drained, or failed by their dialer's own cancellation.
   */
  lemma GenuineFailureIsShared(events: seq<Event>, t: Tid, w: Uid)
    requires t in Run(Start, events).threads && w in Run(Start, events).threads[t].waited
    ensures var p := Run(Start, events).pool;
      w in p.ups && !p.ups[w].dialing && (p.ups[w].dialErr ==> p.ups[w].dialCanceled)
  {
    RunWaited(events, t);
  }

  ghost function ResolvedDials(p: Pool, k: PoolKey): set<Uid> {
    set u | u in p.ups && p.ups[u].key == k && !p.ups[u].dialing
  }

  /** A call never passes the top of its loop more often than dials of its key were resolved, plus one. */
  lemma PassesBounded(events: seq<Event>, t: Tid)
    requires var pc := At(Run(Start, events), t);
      pc.Passing? || pc.Parked? || pc.Woken? || pc.Dialing? || pc.Failed? || pc.Got?
    ensures var s := Run(Start, events);
      s.threads[t].passes <= |ResolvedDials(s.pool, At(s, t).c.key)| + 1
  {
    hide TunnelOk, PoolOk, NoLeak, Balanced;
    RunOk(events);
    var s := Run(Start, events);
    assert PcOk(s, s.threads[t], At(s, t));
    SubsetSize(s.threads[t].waited, ResolvedDials(s.pool, At(s, t).c.key));
  }

  // ---- the shutdown drain ------------------------------------------------------------------------------

  /** Where a Shutdown call has emptied the pool. */
  ghost predicate PastDrain(pc: Pc) {
    pc.DrainClosing? || pc.Awaiting? || pc.Drained?
  }

  function SnapOf(pc: Pc): set<Tun>
    requires PastDrain(pc)
  {
    if pc.DrainClosing? || pc.Awaiting? || pc.Drained? then pc.snap else {}
  }

  /** From then on, whatever runs, the pool is empty, every upstream is retired and no dial can be installed. */
  lemma DrainIsFinal(events: seq<Event>, t: Tid, more: seq<Event>)
    requires PastDrain(At(Run(Start, events), t))
    ensures var p := Run(Run(Start, events), more).pool;
      p.draining && p.byKey == map[] && forall u :: u in p.ups ==> p.ups[u].closed
  {
    hide ThreadsOk, TunnelsOk, Balanced, NoLeak, UpstreamOk, UpstreamGrows, TunnelLasts, Run;
    DrainEmpties(events, t);
    RunGrows(events, more);
    LaterOk(events, more);
  }

  lemma DrainEmpties(events: seq<Event>, t: Tid)
    requires PastDrain(At(Run(Start, events), t))
    ensures Run(Start, events).pool.draining && Run(Start, events).pool.byKey == map[]
  {
    hide TunnelsOk, Balanced, NoLeak, PoolOk, Run;
    RunOk(events);
    assert PcOk(Run(Start, events), Run(Start, events).threads[t], At(Run(Start, events), t));
  }

  /**
   Once a drain has begun, whatever runs afterwards, no caller passes the top of its loop: it is told of the
   shutdown.
   */
  lemma LateCallersAreRefused(events: seq<Event>, more: seq<Event>, t: Tid, spare: Uid)
    requires Run(Start, events).pool.draining
    requires var s := Run(Run(Start, events), more); At(s, t).Passing? && spare !in s.pool.ups
    ensures var s := Run(Run(Start, events), more); var s' := Step(s, DoPass(t, spare));
      At(s', t) == Failed(At(s, t).c, ShuttingDown) && s'.pool == s.pool
  {
    hide Run, TunnelLasts;
    RunGrows(events, more);
  }

  /** A dial that lands after the pool was emptied wakes its waiters and is closed. */
  lemma LateDialsAreClosed(events: seq<Event>, t: Tid, drainer: Tid)
    requires PastDrain(At(Run(Start, events), drainer)) && At(Run(Start, events), t).Dialing?
    ensures var s := Run(Start, events); var Dialing(c, u) := At(s, t);
      At(Step(s, DialDone(t, true)), t) == Signalling(u, Closing(u, Failed(c, ShuttingDown)))
  {
    hide TunnelOk, Balanced, NoLeak, PoolOk;
    DrainIsFinal(events, drainer, []);
    RunNothing(Run(Start, events));
    RunOk(events);
    assert PcOk(Run(Start, events), Run(Start, events).threads[t], At(Run(Start, events), t));
  }

  /** The goroutines that run tunnel x. */
  ghost function Owners(s: Surface, x: Tun): set<Tid> {
    set t | t in s.threads && s.threads[t].pc == Owner(x)
  }

  /**
   Every registered client tunnel the drain did not snapshot has exactly one goroutine running it, which is already
   unwinding it, or has its check for a drain still ahead and will find one.
   */
  lemma DrainMissesNoTunnel(events: seq<Event>, t: Tid, x: Tun)
    requires PastDrain(At(Run(Start, events), t))
    requires x in Run(Start, events).tunnels && Run(Start, events).tunnels[x].client
    requires InRegistry(Run(Start, events).tunnels[x]) && x !in SnapOf(At(Run(Start, events), t))
    ensures var s := Run(Start, events);
      && |Owners(s, x)| == 1
      && s.tunnels[x].phase in {Registered, Unwinding, Completed}
      && (s.tunnels[x].phase == Registered ==>
            forall o :: o in Owners(s, x) ==>
              var s' := Step(s, CheckDraining(o)); x in s'.tunnels && s'.tunnels[x].phase == Unwinding)
  {
    hide TunnelsOk, Balanced, NoLeak, PoolOk, Run, Step;
    RunOk(events);
    var s := Run(Start, events);
    assert PcOk(s, s.threads[t], At(s, t));
    OneOwner(s, x);
    if s.tunnels[x].phase == Registered {
      forall o | o in Owners(s, x) { CheckUnwinds(s, o); }
    }
  }

  lemma OneOwner(s: Surface, x: Tun)
    requires Inv(s) && x in s.tunnels && InRegistry(s.tunnels[x])
    ensures |Owners(s, x)| == 1
  {
    hide PoolOk, NoLeak;
    TunnelIsOk(s, x);
    OwingIs(s, OwnTok(x));
    assert Held(s, OwnTok(x)) == Supply(s, OwnTok(x));
    forall t | t in s.threads ensures OwnTok(x) in Tokens(s.threads[t].pc) <==> s.threads[t].pc == Owner(x) {
      OnlyOwnersOwn(s, s.threads[t], s.threads[t].pc, x);
    }
    assert Owing(s, OwnTok(x)) == Owners(s, x);
  }

  lemma {:induction false} OnlyOwnersOwn(s: Surface, th: Thread, pc: Pc, x: Tun)
    requires PcOk(s, th, pc)
    ensures OwnTok(x) in Tokens(pc) <==> pc == Owner(x)
    decreases pc
  {
    hide LoopOk, WhyOk, DrainedOk;
    if pc.Signalling? || pc.Closing? { OnlyOwnersOwn(s, th, pc.next, x); }
  }

  lemma CheckUnwinds(s: Surface, t: Tid)
    requires At(s, t).Owner? && At(s, t).x in s.tunnels && s.pool.draining
    requires var tn := s.tunnels[At(s, t).x]; tn.captured && tn.client && tn.phase == Registered
    ensures var s' := Step(s, CheckDraining(t)); At(s, t).x in s'.tunnels && s'.tunnels[At(s, t).x].phase == Unwinding
  {
  }

  /** A Shutdown that reports nothing left saw every tunnel of its snapshot torn down. */
  lemma ZeroLeftMeansTornDown(events: seq<Event>, t: Tid)
    requires At(Run(Start, events), t).Drained? && At(Run(Start, events), t).left == 0
    ensures var s := Run(Start, events);
      forall x :: x in At(s, t).snap ==> x in s.tunnels && TornDown(s.tunnels[x])
  {
    hide TunnelsOk, Balanced, NoLeak, PoolOk, Run;
    RunOk(events);
    assert PcOk(Run(Start, events), Run(Start, events).threads[t], At(Run(Start, events), t));
  }
}
