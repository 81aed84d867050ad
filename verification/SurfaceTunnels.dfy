/**
 The life of a tunnel, told by the events of the run alone: which of its heal failures are logged, what it was asked
 for, and whether it was let in.
 */
module SurfaceTunnels {
  import opened Common
  import opened UpstreamPool
  import opened NoiseSurface
  import opened SurfaceInvariant
  import opened SurfaceSteps
  import opened SurfaceRuns

  // ---- which failures are logged ------------------------------------------------------------------

  /** Event e ends a heal of tunnel x in failure. */
  ghost predicate HealFails(s: Surface, e: Event, x: Tun) {
    && e.HealFailed? && x in s.tunnels
    && At(s, e.t).Failed? && At(s, e.t).c.goal.ForHeal? && At(s, e.t).c.goal.x == x
  }

  /** Event e swaps tunnel x, still open and on the upstream its heal left, onto another. */
  ghost predicate HealWins(s: Surface, e: Event, x: Tun) {
    && e.HealSwap? && x in s.tunnels && !s.tunnels[x].closed
    && At(s, e.t).Got? && At(s, e.t).c.goal == ForHeal(x, s.tunnels[x].up)
  }

  /** Some heal of x has failed since its last swap. */
  ghost predicate FailedSinceSwap(events: seq<Event>, x: Tun) {
    events != [] &&
    var front, e := events[..|events| - 1], events[|events| - 1];
    HealFails(Run(Start, front), e, x) || (FailedSinceSwap(front, x) && !HealWins(Run(Start, front), e, x))
  }

  /** What an event does to the log and to the failure flag of one tunnel. */
  ghost predicate Logs(s: Surface, e: Event, x: Tun) {
    x in Step(s, e).tunnels ==>
      var tn := Step(s, e).tunnels[x];
      if x !in s.tunnels then !tn.healFailed && tn.warnings == 0
      else
        && tn.warnings == s.tunnels[x].warnings + One(HealFails(s, e, x) && !s.tunnels[x].healFailed)
        && tn.healFailed == (HealFails(s, e, x) || (s.tunnels[x].healFailed && !HealWins(s, e, x)))
  }

  lemma LogMoves(s: Surface, e: Event, x: Tun)
    ensures Logs(s, e, x)
  {
    hide Step;
    if e.HealSwap? || e.HealFailed? { HealLogs(s, e, x); }
    else if MovesTunnels(e) { OwnerLogs(s, e, x); }
    else { TunnelsRest(s, e); }
  }

  lemma HealLogs(s: Surface, e: Event, x: Tun)
    requires e.HealSwap? || e.HealFailed?
    ensures Logs(s, e, x)
  {
  }

  lemma OwnerLogs(s: Surface, e: Event, x: Tun)
    requires MovesTunnels(e) && !e.HealSwap? && !e.HealFailed?
    ensures Logs(s, e, x)
  {
    hide PhaseAfter, TornDown, InRegistry;
  }

  /** A tunnel's flag says that a heal of it has failed since its last swap. */
  lemma {:induction false} FlagIs(events: seq<Event>, x: Tun)
    ensures if x in Run(Start, events).tunnels
            then Run(Start, events).tunnels[x].healFailed == FailedSinceSwap(events, x)
            else !FailedSinceSwap(events, x)
    decreases |events|
  {
    hide Step, HealWins;
    if events != [] {
      var k := |events| - 1;
      FlagIs(events[..k], x);
      LogMoves(Run(Start, events[..k]), events[k], x);
      TunnelsAdd(Run(Start, events[..k]), events[k], x);
    }
  }

  lemma TunnelsAdd(s: Surface, e: Event, x: Tun)
    ensures x in s.tunnels ==> x in Step(s, e).tunnels
  {
    hide Step;
    if MovesTunnels(e) { MovesAdd(s, e, x); } else { TunnelsRest(s, e); }
  }

  lemma MovesAdd(s: Surface, e: Event, x: Tun)
    requires MovesTunnels(e)
    ensures x in s.tunnels ==> x in Step(s, e).tunnels
  {
    hide PhaseAfter, TornDown, InRegistry, Swap, MarkHealFailed, MarkClosed, NewTunnel;
  }

  /**
   Over every event of every run, a warning is logged for a tunnel exactly when a heal of it fails and none has failed
   since its last swap.
   */
  lemma FirstFailureIsLogged(events: seq<Event>, e: Event, x: Tun)
    requires x in Run(Start, events).tunnels
    ensures var s := Run(Start, events);
      && x in Step(s, e).tunnels
      && Step(s, e).tunnels[x].warnings
         == s.tunnels[x].warnings + if HealFails(s, e, x) && !FailedSinceSwap(events, x) then 1 else 0
  {
    hide Step, HealFails, HealWins, Run;
    FlagIs(events, x);
    LogMoves(Run(Start, events), e, x);
    TunnelsAdd(Run(Start, events), e, x);
  }

  // ---- what was asked for ----------------------------------------------------------------------------

  /** The last request goroutine t took up: its key, and whether it was for a client tunnel. */
  ghost function LastAsk(events: seq<Event>, t: Tid): Option<(PoolKey, bool)> {
    if events == [] then None
    else
      var front, e := events[..|events| - 1], events[|events| - 1];
      if e.Request? && e.t == t && At(Run(Start, front), t).Idle? then Some((e.key, e.client)) else LastAsk(front, t)
  }

  /** The call a goroutine is in. */
  ghost function CallOf(pc: Pc): Option<Call> {
    match pc
    case Passing(c) => Some(c)
    case Parked(c, _) => Some(c)
    case Woken(c, _) => Some(c)
    case Dialing(c, _) => Some(c)
    case Failed(c, _) => Some(c)
    case Got(c, _) => Some(c)
    case Signalling(_, next) => CallOf(next)
    case Closing(_, next) => CallOf(next)
    case _ => None
  }

  /** A call that heals nothing is the one that was asked for. */
  ghost predicate AsAsked(call: Option<Call>, ask: Option<(PoolKey, bool)>) {
    call.Some? && !call.value.goal.ForHeal? ==> ask == Some((call.value.key, call.value.goal.ForClient?))
  }

  lemma AskMoves(s: Surface, e: Event)
    ensures var was, now := CallOf(At(s, e.t)), CallOf(NextPc(s, e));
      || now == was || now == None || now.value.goal.ForHeal?
      || (e.Request? && At(s, e.t).Idle?
          && now == Some(Call(e.key, if e.client then ForClient else ForFresh)))
  {
    hide Pass;
    if e.DialDone? && At(s, e.t).Dialing? && At(s, e.t).u in s.pool.ups { DialCall(s.pool, At(s, e.t), e.ok); }
  }

  lemma DialCall(p: Pool, pc: Pc, ok: bool)
    requires pc.Dialing? && pc.u in p.ups
    ensures CallOf(DialPc(p, pc.c, pc.u, ok)) == Some(pc.c)
  {
    assert CallOf(Closing(pc.u, Failed(pc.c, ShuttingDown))) == CallOf(Failed(pc.c, ShuttingDown));
  }

  lemma {:induction false} CallIsAsked(events: seq<Event>, t: Tid)
    ensures AsAsked(CallOf(At(Run(Start, events), t)), LastAsk(events, t))
    decreases |events|
  {
    hide Step, NextPc;
    if events == [] {
      assert At(Run(Start, events), t) == Idle;
    } else {
      var k := |events| - 1;
      CallIsAsked(events[..k], t);
      PcAfter(Run(Start, events[..k]), events[k], t);
      if events[k].t == t {
        AskMoves(Run(Start, events[..k]), events[k]);
      }
    }
  }

  /** A tunnel appears by being opened, on the upstream its call was given, under its call's key and kind. */
  lemma OpenedAs(s: Surface, e: Event, x: Tun)
    requires x in Step(s, e).tunnels && x !in s.tunnels
    ensures e.OpenTunnel? && e.x == x && At(s, e.t).Got? && !At(s, e.t).c.goal.ForHeal?
    ensures var tn := Step(s, e).tunnels[x];
      && tn.key == At(s, e.t).c.key && tn.client == At(s, e.t).c.goal.ForClient? && tn.captured == e.captured
      && tn.up == tn.bridge == At(s, e.t).u && tn.phase == Opened && !tn.closed
  {
    hide Step;
    if MovesTunnels(e) { OpeningIs(s, e, x); } else { TunnelsRest(s, e); }
  }

  lemma OpeningIs(s: Surface, e: Event, x: Tun)
    requires MovesTunnels(e) && x in Step(s, e).tunnels && x !in s.tunnels
    ensures e.OpenTunnel? && e.x == x && At(s, e.t).Got? && !At(s, e.t).c.goal.ForHeal?
    ensures var tn := Step(s, e).tunnels[x];
      && tn.key == At(s, e.t).c.key && tn.client == At(s, e.t).c.goal.ForClient? && tn.captured == e.captured
      && tn.up == tn.bridge == At(s, e.t).u && tn.phase == Opened && !tn.closed
  {
    hide PhaseAfter, Swap, MarkHealFailed, MarkClosed, InRegistry, TornDown;
  }

  /** Event n of the run opens tunnel x, by the goroutine t. */
  ghost predicate Opens(events: seq<Event>, n: nat, t: Tid, x: Tun) {
    && n < |events| && events[n].OpenTunnel? && events[n].t == t && events[n].x == x
    && x !in Run(Start, events[..n]).tunnels
    && At(Run(Start, events[..n]), t).Got? && !At(Run(Start, events[..n]), t).c.goal.ForHeal?
  }

  /**
   Every tunnel of every run was opened by an event, and for good has the key and the kind that the goroutine opening
   it was last asked for.
   */
  lemma {:induction false} TunnelIsAsAsked(events: seq<Event>, x: Tun) returns (n: nat, t: Tid)
    requires x in Run(Start, events).tunnels
    ensures var tn := Run(Start, events).tunnels[x];
      && Opens(events, n, t, x) && tn.captured == events[n].captured
      && LastAsk(events[..n], t) == Some((tn.key, tn.client))
    decreases |events|
  {
    hide Step, NextPc, LastAsk, Inv, PoolGrows;
    var k := |events| - 1;
    var s := Run(Start, events[..k]);
    RunOk(events[..k]);
    if x in s.tunnels {
      StepGrows(s, events[k]);
      n, t := TunnelIsAsAsked(events[..k], x);
      assert events[..k][..n] == events[..n];
    } else {
      OpenedAs(s, events[k], x);
      n, t := k, events[k].t;
      CallIsAsked(events[..k], t);
    }
  }

  // ---- who is let in -----------------------------------------------------------------------------------

  /** Event n of the run begins a drain. */
  ghost predicate Begins(events: seq<Event>, n: nat) {
    n < |events| && events[n].DoBeginDrain? && At(Run(Start, events[..n]), events[n].t).Idle?
  }

  lemma DrainMoves(s: Surface, e: Event)
    ensures Step(s, e).pool.draining == (s.pool.draining || (e.DoBeginDrain? && At(s, e.t).Idle?))
  {
    hide Step, Unmap;
    PoolAfter(s, e);
  }

  /** The surface is draining exactly when a drain was begun. */
  lemma {:induction false} DrainingIff(events: seq<Event>)
    ensures Run(Start, events).pool.draining <==> exists n :: Begins(events, n)
    decreases |events|
  {
    hide Step;
    if events != [] {
      var k := |events| - 1;
      DrainingIff(events[..k]);
      DrainMoves(Run(Start, events[..k]), events[k]);
      forall n: nat | n < k ensures Begins(events, n) <==> Begins(events[..k], n) {
        assert events[..k][..n] == events[..n];
      }
      assert forall n :: Begins(events, n) ==> n == k || Begins(events[..k], n);
      assert forall n :: Begins(events[..k], n) ==> Begins(events, n);
      assert Begins(events, k) <==> events[k].DoBeginDrain? && At(Run(Start, events[..k]), events[k].t).Idle?;
    }
  }

  /**
   The check a tunnel's owner makes once it is set up: a tunnel asked for by a client goes on to serve exactly when no
   drain has begun, any other always.
   */
  lemma LetInIff(events: seq<Event>, t: Tid, n: nat, t0: Tid)
    requires var s := Run(Start, events); At(s, t).Owner? && At(s, t).x in s.tunnels
    requires var s := Run(Start, events); var tn := s.tunnels[At(s, t).x];
      tn.phase == (if tn.captured then Registered else Opened) && Opens(events, n, t0, At(s, t).x)
    ensures var s := Run(Start, events); var x := At(s, t).x; var s' := Step(s, CheckDraining(t));
      && LastAsk(events[..n], t0).Some?
      && x in s'.tunnels
      && var drained := LastAsk(events[..n], t0).value.1 && exists n :: Begins(events, n);
         s'.tunnels[x] == s.tunnels[x].(phase := if drained then Unwinding else Serving)
  {
    hide Run, LastAsk;
    var s := Run(Start, events);
    DrainingIff(events);
    AskedOnce(events, At(s, t).x, n, t0);
  }

  /** A tunnel is opened once. */
  lemma AskedOnce(events: seq<Event>, x: Tun, n: nat, t: Tid)
    requires x in Run(Start, events).tunnels && Opens(events, n, t, x)
    ensures var tn := Run(Start, events).tunnels[x]; LastAsk(events[..n], t) == Some((tn.key, tn.client))
  {
    hide Run, LastAsk;
    var n', t' := TunnelIsAsAsked(events, x);
    if n < n' { OpensOnce(events, x, n, t, n'); }
    if n' < n { OpensOnce(events, x, n', t', n); }
  }

  lemma OpensOnce(events: seq<Event>, x: Tun, n: nat, t: Tid, m: nat)
    requires n < m <= |events| && Opens(events, n, t, x)
    ensures x in Run(Start, events[..m]).tunnels
  {
    hide Run, Step, PoolGrows;
    var now := events[..n + 1];
    assert now == events[..n] + [events[n]];
    RunAppend(Start, events[..n], events[n]);
    OpeningAdds(Run(Start, events[..n]), events[n], x);
    RunGrows(now, events[n + 1..m]);
    RunConcat(Start, now, events[n + 1..m]);
    assert now + events[n + 1..m] == events[..m];
  }

  lemma OpeningAdds(s: Surface, e: Event, x: Tun)
    requires e.OpenTunnel? && e.x == x && x !in s.tunnels && At(s, e.t).Got? && !At(s, e.t).c.goal.ForHeal?
    ensures x in Step(s, e).tunnels
  {
  }

  // ---- the stages of a tunnel ----------------------------------------------------------------------------

  /** The next stages a tunnel may reach, and who takes it there. */
  ghost predicate NextStage(e: Event, a: Phase, b: Phase, captured: bool) {
    || (captured && e.Register? && a == Opened && b == Registered)
    || (e.CheckDraining? && a == (if captured then Registered else Opened) && b in {Serving, Unwinding})
    || (e.Unwind? && a == Serving && b == Unwinding)
    || (captured && e.Complete? && a == Unwinding && b == Completed)
    || (captured && e.Deregister? && a == Completed && b == Deregistered)
  }

  /** A tunnel's stage moves in order, when its owner moves it and only then: its flow is completed before it leaves. */
  lemma StagesInOrder(s: Surface, e: Event, x: Tun)
    requires x in s.tunnels
    ensures x in Step(s, e).tunnels
    ensures var a, b := s.tunnels[x], Step(s, e).tunnels[x];
      if At(s, e.t) == Owner(x) && exists p: Phase :: NextStage(e, a.phase, p, a.captured)
      then NextStage(e, a.phase, b.phase, a.captured) else a.phase == b.phase
  {
    hide Step;
    if MovesTunnels(e) { StageMoves(s, e, x); } else { TunnelsRest(s, e); }
  }

  lemma StageMoves(s: Surface, e: Event, x: Tun)
    requires MovesTunnels(e) && x in s.tunnels
    ensures x in Step(s, e).tunnels
    ensures var a, b := s.tunnels[x], Step(s, e).tunnels[x];
      if At(s, e.t) == Owner(x) && exists p: Phase :: NextStage(e, a.phase, p, a.captured)
      then NextStage(e, a.phase, b.phase, a.captured) else a.phase == b.phase
  {
    hide PhaseAfter, NextStage, TornDown, InRegistry;
    EdgeIs(e, s.tunnels[x], s.pool.draining);
  }

  /** An event's edges, read off the tunnel. */
  lemma EdgeIs(e: Event, tn: Tunnel, draining: bool)
    ensures match PhaseAfter(e, tn, draining)
      case Some(b) => NextStage(e, tn.phase, b, tn.captured)
      case None => forall p: Phase :: !NextStage(e, tn.phase, p, tn.captured)
    ensures !e.Register? && !e.CheckDraining? && !e.Unwind? && !e.Complete? && !e.Deregister? ==>
        forall p: Phase :: !NextStage(e, tn.phase, p, tn.captured)
  {
  }

  /** A Shutdown waits for exactly the captured tunnels past registration that have not left the registry. */
  lemma SnapshotIs(s: Surface, t: Tid)
    requires At(s, t) == DrainBegun
    ensures At(Step(s, Snapshot(t)), t) ==
      Snapped(set x | x in s.tunnels && s.tunnels[x].captured && s.tunnels[x].phase !in {Opened, Deregistered})
  {
    hide Step;
    PcAfter(s, Snapshot(t), t);
    forall tn: Tunnel ensures InRegistry(tn) <==> tn.captured && tn.phase !in {Opened, Deregistered} { BooksAre(tn); }
  }

  lemma BooksAre(tn: Tunnel)
    ensures InRegistry(tn) <==> tn.captured && tn.phase !in {Opened, Deregistered}
  {
    match tn.phase
    case Opened =>
    case Registered =>
    case Serving =>
    case Unwinding =>
    case Completed =>
    case Deregistered =>
  }
}
