/** Concrete runs in which documented promises of the surface fail, event by event. */
module SurfaceRaces {
  import opened Common
  import opened UpstreamPool
  import opened NoiseSurface
  import opened SurfaceRuns
  import opened SurfaceTheorems
  import opened SurfaceHeals

  // ---- a grace cut short ------------------------------------------------------------------------

  /** Release, let the timer fire, re-acquire and release before its callback gets the lock. */
  function StaleEvents(k: PoolKey): seq<Event> {
    [Request(0, k, false), DoPass(0, 0), DialDone(0, true), DoSignal(0), DropFresh(0), DoRelease(0),
     DoFire(1, 0), Request(2, k, false), DoPass(2, 1), DropFresh(2), DoRelease(2)]
  }

  lemma Replay(s: Surface, events: seq<Event>, n: nat)
    requires n < |events|
    ensures Run(s, events[..n + 1]) == Step(Run(s, events[..n]), events[n])
  {
    assert events[..n + 1] == events[..n] + [events[n]];
    RunAppend(s, events[..n], events[n]);
  }

  /** The upstream of that run with the given refs, idle timer and number of graces so far. */
  function StaleUpstream(k: PoolKey, refs: int, timer: Timer, grace: nat): Upstream {
    Upstream(k, refs, false, false, true, false, false, true, timer, grace, Open)
  }

  function StalePool(k: PoolKey, refs: int, timer: Timer, grace: nat): Pool {
    Pool(map[0 := StaleUpstream(k, refs, timer, grace)], map[k := 0], false)
  }

  function FirstCaller(pc: Pc): Thread { Thread(pc, Live, 1, {}, Some(0)) }

  function StaleState(k: PoolKey, refs: int, timer: Timer, grace: nat, first: Pc, others: map<Tid, Thread>): Surface {
    Surface(StalePool(k, refs, timer, grace), map[], map[0 := FirstCaller(first)] + others)
  }

  function StaleCallers(pc: Pc, passes: nat): map<Tid, Thread> {
    map[1 := Thread(Callback(0, 1), Live, 0, {}, None), 2 := Thread(pc, Live, passes, {}, None)]
  }

  lemma StaleStarted(k: PoolKey)
    ensures Run(Start, StaleEvents(k)[..2])
            == Surface(Pool(map[0 := Dialer(k)], map[k := 0], false), map[],
                       map[0 := FirstCaller(Dialing(Call(k, ForFresh), 0))])
  {
    hide Run, PhaseAfter, Swap, MarkHealFailed, MarkClosed;
    hide Evict, DrainAll, IdleClose, TryAcquire, InRegistry, TornDown;
    var es := StaleEvents(k);
    assert es[..0] == [] && Run(Start, []) == Start by { RunNothing(Start); }
    Replay(Start, es, 0);
    Replay(Start, es, 1);
  }

  lemma StaleLanded(k: PoolKey)
    ensures var x := StaleUpstream(k, 1, NoTimer, 0).(signalled := false);
      Run(Start, StaleEvents(k)[..3]) == Surface(
        Pool(map[0 := x], map[k := 0], false), map[],
        map[0 := FirstCaller(Signalling(0, Got(Call(k, ForFresh), 0)))])
  {
    hide Run, PhaseAfter, Swap, MarkHealFailed, MarkClosed;
    hide Evict, DrainAll, IdleClose, TryAcquire, InRegistry, TornDown;
    StaleStarted(k);
    Replay(Start, StaleEvents(k), 2);
  }

  lemma StaleDialed(k: PoolKey)
    ensures Run(Start, StaleEvents(k)[..4]) == StaleState(k, 1, NoTimer, 0, Got(Call(k, ForFresh), 0), map[])
  {
    hide Run, PhaseAfter, Swap, MarkHealFailed, MarkClosed;
    hide Evict, DrainAll, IdleClose, TryAcquire, InRegistry, TornDown;
    StaleLanded(k);
    Replay(Start, StaleEvents(k), 3);
  }

  lemma StaleDropped(k: PoolKey)
    ensures Run(Start, StaleEvents(k)[..5]) == StaleState(k, 1, NoTimer, 0, Releasing(0), map[])
  {
    hide Run, PhaseAfter, Swap, MarkHealFailed, MarkClosed;
    hide Evict, DrainAll, IdleClose, TryAcquire, InRegistry, TornDown;
    StaleDialed(k);
    Replay(Start, StaleEvents(k), 4);
  }

  lemma StaleReleased(k: PoolKey)
    ensures Run(Start, StaleEvents(k)[..6]) == StaleState(k, 0, Armed, 1, Idle, map[])
  {
    hide Run, PhaseAfter, Swap, MarkHealFailed, MarkClosed;
    hide Evict, DrainAll, IdleClose, TryAcquire, InRegistry, TornDown;
    StaleDropped(k);
    Replay(Start, StaleEvents(k), 5);
  }

  lemma StaleTimedOut(k: PoolKey)
    ensures Run(Start, StaleEvents(k)[..7])
            == StaleState(k, 0, Fired, 1, Idle, map[1 := Thread(Callback(0, 1), Live, 0, {}, None)])
  {
    hide Run, PhaseAfter, Swap, MarkHealFailed, MarkClosed;
    hide Evict, DrainAll, IdleClose, TryAcquire, InRegistry, TornDown;
    StaleReleased(k);
    Replay(Start, StaleEvents(k), 6);
  }

  lemma StaleFired(k: PoolKey)
    ensures Run(Start, StaleEvents(k)[..8])
            == StaleState(k, 0, Fired, 1, Idle, StaleCallers(Passing(Call(k, ForFresh)), 0))
  {
    hide Run, PhaseAfter, Swap, MarkHealFailed, MarkClosed;
    hide Evict, DrainAll, IdleClose, TryAcquire, InRegistry, TornDown;
    StaleTimedOut(k);
    Replay(Start, StaleEvents(k), 7);
  }

  lemma StaleReacquired(k: PoolKey)
    ensures Run(Start, StaleEvents(k)[..9]) ==
        StaleState(k, 1, NoTimer, 1, Idle, StaleCallers(Got(Call(k, ForFresh), 0), 1))
  {
    hide Run, PhaseAfter, Swap, MarkHealFailed, MarkClosed;
    hide Evict, DrainAll, IdleClose, TryAcquire, InRegistry, TornDown;
    StaleFired(k);
    Replay(Start, StaleEvents(k), 8);
  }

  lemma StaleReleasing(k: PoolKey)
    ensures Run(Start, StaleEvents(k)[..10]) == StaleState(k, 1, NoTimer, 1, Idle, StaleCallers(Releasing(0), 1))
  {
    hide Run, PhaseAfter, Swap, MarkHealFailed, MarkClosed;
    hide Evict, DrainAll, IdleClose, TryAcquire, InRegistry, TornDown;
    StaleReacquired(k);
    Replay(Start, StaleEvents(k), 9);
  }

  lemma StaleRearmed(k: PoolKey)
    ensures var s := Run(Start, StaleEvents(k));
      s.pool == StalePool(k, 0, Armed, 2) && At(s, 1) == Callback(0, 1)
  {
    hide Run, PhaseAfter, Swap, MarkHealFailed, MarkClosed;
    hide Evict, DrainAll, IdleClose, TryAcquire, InRegistry, TornDown;
    var es := StaleEvents(k);
    StaleReleasing(k);
    Replay(Start, es, 10);
    assert es[..11] == es;
  }

  /** A run in which an upstream is closed while the grace of its last release has not elapsed. */
  lemma StaleCallbackClosesEarly(k: PoolKey)
    ensures var s := Run(Start, StaleEvents(k));
      && ClosesNow(s, 1) && At(s, 1).u in s.pool.ups
      && s.pool.ups[At(s, 1).u].timer == Armed && At(s, 1).grace < s.pool.ups[At(s, 1).u].grace
  {
    hide Run;
    StaleRearmed(k);
  }

  // ---- two heals of one tunnel ----------------------------------------------------------------------

  /** A tunnel opens on a fresh upstream; two forwards over it fail and both pass the check; one evicts the upstream. */
  function HealEvents(k: PoolKey): seq<Event> {
    StaleEvents(k)[..4] + [OpenTunnel(0, 0, false), Forward(1, 0), Forward(2, 0), ForwardFailed(1), ForwardFailed(2),
                           DoEvict(1), DoClose(1)]
  }

  function Healer(pc: Pc, passes: nat, dialed: Option<Uid>): Thread {
    Thread(pc, Live, passes, {}, dialed)
  }

  function Heal(k: PoolKey): Call {
    Call(k, ForHeal(0, 0))
  }

  function HealThreads(owner: Pc, one: Thread, two: Thread): map<Tid, Thread> {
    map[0 := FirstCaller(owner), 1 := one, 2 := two]
  }

  /** The dead upstream, still holding the tunnel's ref. */
  function DeadUpstream(k: PoolKey, conn: Conn): Upstream {
    StaleUpstream(k, 1, NoTimer, 0).(closed := true, conn := conn)
  }

  function DeadPool(k: PoolKey, conn: Conn): Pool {
    Pool(map[0 := DeadUpstream(k, conn)], map[], false)
  }

  function OneTunnel(k: PoolKey): map<Tun, Tunnel> {
    map[0 := NewTunnel(k, false, false, 0)]
  }

  lemma HealStart(k: PoolKey, n: nat)
    requires n <= 4
    ensures HealEvents(k)[..n] == StaleEvents(k)[..n]
  {
  }

  lemma HealOpened(k: PoolKey)
    ensures Run(Start, HealEvents(k)[..5]) == Surface(StalePool(k, 1, NoTimer, 0), OneTunnel(k),
      map[0 := FirstCaller(Owner(0))])
  {
    hide Run, PhaseAfter, Swap, MarkHealFailed, MarkClosed, DrainAll;
    hide IdleClose, TryAcquire, InRegistry, TornDown;
    HealStart(k, 4);
    StaleDialed(k);
    Replay(Start, HealEvents(k), 4);
  }

  lemma HealOneForwards(k: PoolKey)
    ensures Run(Start, HealEvents(k)[..6]) == Surface(StalePool(k, 1, NoTimer, 0), OneTunnel(k),
      map[0 := FirstCaller(Owner(0)), 1 := Healer(Forwarding(0, 0), 0, None)])
  {
    hide Run, PhaseAfter, Swap, MarkHealFailed, MarkClosed, DrainAll;
    hide IdleClose, TryAcquire, InRegistry, TornDown;
    HealOpened(k);
    Replay(Start, HealEvents(k), 5);
  }

  lemma HealBothForward(k: PoolKey)
    ensures Run(Start, HealEvents(k)[..7]) == Surface(StalePool(k, 1, NoTimer, 0), OneTunnel(k),
      HealThreads(Owner(0), Healer(Forwarding(0, 0), 0, None), Healer(Forwarding(0, 0), 0, None)))
  {
    hide Run, PhaseAfter, Swap, MarkHealFailed, MarkClosed, DrainAll;
    hide IdleClose, TryAcquire, InRegistry, TornDown;
    HealOneForwards(k);
    Replay(Start, HealEvents(k), 6);
  }

  lemma HealOnePasses(k: PoolKey)
    ensures Run(Start, HealEvents(k)[..8]) == Surface(StalePool(k, 1, NoTimer, 0), OneTunnel(k),
      HealThreads(Owner(0), Healer(Evicting(0, 0), 0, None), Healer(Forwarding(0, 0), 0, None)))
  {
    hide Run, PhaseAfter, Swap, MarkHealFailed, MarkClosed, DrainAll;
    hide IdleClose, TryAcquire, InRegistry, TornDown;
    HealBothForward(k);
    Replay(Start, HealEvents(k), 7);
  }

  lemma HealBothPass(k: PoolKey)
    ensures Run(Start, HealEvents(k)[..9]) == Surface(StalePool(k, 1, NoTimer, 0), OneTunnel(k),
      HealThreads(Owner(0), Healer(Evicting(0, 0), 0, None), Healer(Evicting(0, 0), 0, None)))
  {
    hide Run, PhaseAfter, Swap, MarkHealFailed, MarkClosed, DrainAll;
    hide IdleClose, TryAcquire, InRegistry, TornDown;
    HealOnePasses(k);
    Replay(Start, HealEvents(k), 8);
  }

  lemma HealEvicted(k: PoolKey)
    ensures Run(Start, HealEvents(k)[..10]) == Surface(DeadPool(k, Open), OneTunnel(k),
      HealThreads(Owner(0), Healer(Closing(0, Passing(Heal(k))), 0, None), Healer(Evicting(0, 0), 0, None)))
  {
    hide Run, PhaseAfter, Swap, MarkHealFailed, MarkClosed, DrainAll;
    hide IdleClose, TryAcquire, InRegistry, TornDown;
    HealBothPass(k);
    Replay(Start, HealEvents(k), 9);
  }

  lemma HealCutOff(k: PoolKey)
    ensures Run(Start, HealEvents(k)) == Surface(DeadPool(k, Closed), OneTunnel(k),
      HealThreads(Owner(0), Healer(Passing(Heal(k)), 0, None), Healer(Evicting(0, 0), 0, None)))
  {
    hide Run, PhaseAfter, Swap, MarkHealFailed, MarkClosed, DrainAll;
    hide IdleClose, TryAcquire, InRegistry, TornDown;
    HealEvicted(k);
    Replay(Start, HealEvents(k), 10);
    assert HealEvents(k)[..11] == HealEvents(k);
  }

  /** The tunnel is closed before the healer's pass: the heal of a closed tunnel dials all the same. */
  lemma ClosedTunnelRedials(k: PoolKey)
    ensures var s := Run(Start, HealEvents(k) + [CloseTunnel(0)]);
      && 0 in s.tunnels && s.tunnels[0].closed
      && At(Run(s, [DoPass(1, 1)]), 1) == Dialing(Heal(k), 1)
  {
    hide Run;
    var s := Run(Start, HealEvents(k));
    HealCutOff(k);
    RunAppend(Start, HealEvents(k), CloseTunnel(0));
    ClosesUnderHeal(s, k);
    var s1 := Step(s, CloseTunnel(0));
    assert [DoPass(1, 1)] == [] + [DoPass(1, 1)];
    RunAppend(s1, [], DoPass(1, 1));
    RunNothing(s1);
  }

  lemma ClosesUnderHeal(s: Surface, k: PoolKey)
    requires s == Surface(DeadPool(k, Closed), OneTunnel(k),
      HealThreads(Owner(0), Healer(Passing(Heal(k)), 0, None), Healer(Evicting(0, 0), 0, None)))
    ensures var s' := Step(s, CloseTunnel(0));
      && s'.pool == s.pool && 0 in s'.tunnels && s'.tunnels[0].closed
      && 1 in s'.threads && s'.threads[1] == s.threads[1]
  {
  }

  /** The first healer dials anew and holds the fresh upstream, the other still past its check on the dead one. */
  function RaceEvents(k: PoolKey): seq<Event> {
    HealEvents(k) + [DoPass(1, 1), DialDone(1, true), DoSignal(1)]
  }

  function RacePool(k: PoolKey, fresh1: Upstream): Pool {
    Pool(map[0 := DeadUpstream(k, Closed), 1 := fresh1], map[k := 1], false)
  }

  lemma RaceDials(k: PoolKey)
    ensures Run(Start, RaceEvents(k)[..12]) == Surface(RacePool(k, Dialer(k)), OneTunnel(k),
      HealThreads(Owner(0), Healer(Dialing(Heal(k), 1), 1, Some(1)), Healer(Evicting(0, 0), 0, None)))
  {
    hide Run, PhaseAfter, Swap, MarkHealFailed, MarkClosed, DrainAll;
    hide IdleClose, TryAcquire, InRegistry, TornDown;
    assert RaceEvents(k)[..11] == HealEvents(k);
    HealCutOff(k);
    Replay(Start, RaceEvents(k), 11);
  }

  lemma RaceLands(k: PoolKey)
    ensures var u := StaleUpstream(k, 1, NoTimer, 0).(signalled := false);
      Run(Start, RaceEvents(k)[..13]) == Surface(RacePool(k, u), OneTunnel(k),
      HealThreads(Owner(0), Healer(Signalling(1, Got(Heal(k), 1)), 1, Some(1)), Healer(Evicting(0, 0), 0, None)))
  {
    hide Run, PhaseAfter, Swap, MarkHealFailed, MarkClosed, DrainAll;
    hide IdleClose, TryAcquire, InRegistry, TornDown;
    RaceDials(k);
    Replay(Start, RaceEvents(k), 12);
  }

  lemma RaceReady(k: PoolKey)
    ensures Run(Start, RaceEvents(k)) == Surface(RacePool(k, StaleUpstream(k, 1, NoTimer, 0)), OneTunnel(k),
      HealThreads(Owner(0), Healer(Got(Heal(k), 1), 1, Some(1)), Healer(Evicting(0, 0), 0, None)))
  {
    hide Run, PhaseAfter, Swap, MarkHealFailed, MarkClosed, DrainAll;
    hide IdleClose, TryAcquire, InRegistry, TornDown;
    RaceLands(k);
    Replay(Start, RaceEvents(k), 13);
    assert RaceEvents(k)[..14] == RaceEvents(k);
  }

  /** The winner's swap begins an episode whose first failed heal some interleaving leaves unlogged. */
  lemma EpisodeGoesSilent(k: PoolKey)
    ensures exists more, f :: Unlogged(Run(Start, RaceEvents(k) + [HealSwap(1)]), more, f, 0, 1)
  {
    hide Run, Unlogged, Step;
    RaceReady(k);
    RunAppend(Start, RaceEvents(k), HealSwap(1));
    SwapSpares(Run(Start, RaceEvents(k)), k);
    SilentEpisodeIff(RaceEvents(k), 1);
    assert HealOf(At(Run(Start, RaceEvents(k) + [HealSwap(1)]), 2)) == Some((0, 0));
  }

  lemma SwapSpares(s: Surface, k: PoolKey)
    requires s == Surface(RacePool(k, StaleUpstream(k, 1, NoTimer, 0)), OneTunnel(k),
      HealThreads(Owner(0), Healer(Got(Heal(k), 1), 1, Some(1)), Healer(Evicting(0, 0), 0, None)))
    ensures At(Step(s, HealSwap(1)), 2) == Evicting(0, 0)
  {
  }
}
