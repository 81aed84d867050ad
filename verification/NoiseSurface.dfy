/**
 The Noise surface as a transition system: goroutines running getOrCreateUpstream, tryAcquireUpstream,
 releaseUpstream, healUpstream, closeTunnel, the idle callbacks and Shutdown, interleaved freely.
 A step is one critical section (h.mu or at.mu), or one action between two of them: closing a ready
 channel, closing a connection, a timer firing, a context ending, a dial coming back.
 A goroutine's program counter says where it is and, through Tokens, what it still owes.
 */
module NoiseSurface {
  import opened Common
  import opened UpstreamPool

  type Tid = nat
  type Tun = nat

  // ---- goroutines --------------------------------------------------------------

  datatype Ctx = Live | Canceled | Expired

  /** Who wants an upstream: a client tunnel, a fresh replay/injection tunnel, or a heal of x off dead. */
  datatype Goal = ForClient | ForFresh | ForHeal(x: Tun, dead: Uid)

  datatype Call = Call(key: PoolKey, goal: Goal)

  /** Why getOrCreateUpstream returned an error. */
  datatype Why = CtxDone | DialFailed(u: Uid) | ShuttingDown

  datatype Pc =
    | Idle
    | Passing(c: Call)                    // about to lock at the top of the loop
    | Parked(c: Call, u: Uid)             // waiting on u.ready or its own context
    | Woken(c: Call, u: Uid)              // saw ready closed, about to read u.dialErr
    | Dialing(c: Call, u: Uid)            // in dialFn, outside the lock
    | Signalling(u: Uid, next: Pc)        // owes close(ready)
    | Closing(u: Uid, next: Pc)           // owes u.uc.close()
    | Failed(c: Call, why: Why)           // getOrCreateUpstream returned an error
    | Got(c: Call, u: Uid)                // getOrCreateUpstream returned u, its ref held
    | Owner(x: Tun)                       // runs tunnel x until closeTunnel
    | Releasing(u: Uid)                   // holds a ref whose only remaining use is one release
    | Borrowing(u: Uid)                   // read a tunnel's upstream, about to tryAcquire it
    | Forwarding(x: Tun, up: Uid)         // forwarding over the upstream it read from x
    | Evicting(x: Tun, up: Uid)           // forward failed on x's current upstream, about to evict it
    | Callback(u: Uid, grace: nat)        // idle timer fired, on its way to the lock
    | DrainBegun
    | Snapped(snap: set<Tun>)
    | DrainClosing(snap: set<Tun>, conns: set<Uid>)
    | Awaiting(snap: set<Tun>, todo: set<Tun>, left: nat)
    | Drained(snap: set<Tun>, left: nat)

  /** passes, waited and dialed describe the getOrCreateUpstream call in progress. */
  datatype Thread = Thread(pc: Pc, ctx: Ctx, passes: nat, waited: set<Uid>, dialed: Option<Uid>)

  // ---- tunnels -------------------------------------------------------------------

  /** How far the goroutine that owns a tunnel has taken it. */
  datatype Phase = Opened | Registered | Serving | Unwinding | Completed | Deregistered

  /** history lists every upstream the tunnel was ever bound to; warnings counts its heal-failure lines. */
  datatype Tunnel = Tunnel(
    key: PoolKey, client: bool, captured: bool,
    up: Uid, bridge: Uid, closed: bool, healFailed: bool,
    phase: Phase, history: seq<Uid>, warnings: nat)

  predicate InRegistry(tn: Tunnel) {
    tn.captured && tn.phase in {Registered, Serving, Unwinding, Completed}
  }

  predicate TornDown(tn: Tunnel) {
    tn.captured && tn.phase == Deregistered
  }

  function NewTunnel(key: PoolKey, client: bool, captured: bool, u: Uid): Tunnel {
    Tunnel(key, client, captured, u, u, false, false, Opened, [u], 0)
  }

  /** The heal's compare-and-swap under at.mu. */
  function Swap(tn: Tunnel, dead: Uid, u: Uid): (bool, Tunnel) {
    if tn.closed || tn.up != dead then (false, tn)
    else (true, tn.(up := u, bridge := u, healFailed := false, history := tn.history + [u]))
  }

  /** A failed heal dial: only the first failure since the last swap is logged. */
  function MarkHealFailed(tn: Tunnel): (bool, Tunnel) {
    (!tn.healFailed, tn.(healFailed := true, warnings := tn.warnings + if tn.healFailed then 0 else 1))
  }

  function MarkClosed(tn: Tunnel): (bool, Tunnel) {
    (!tn.closed, tn.(closed := true))
  }

  // ---- the whole surface -----------------------------------------------------------

  datatype Surface = Surface(pool: Pool, tunnels: map<Tun, Tunnel>, threads: map<Tid, Thread>)

  const Start := Surface(Empty, map[], map[])

  datatype Event =
    | Request(t: Tid, key: PoolKey, client: bool)
    | EndCtx(t: Tid, canceled: bool)
    | DoPass(t: Tid, spare: Uid)
    | Wake(t: Tid)
    | Abandon(t: Tid)
    | Observe(t: Tid)
    | DialDone(t: Tid, ok: bool)
    | DoSignal(t: Tid)
    | DoClose(t: Tid)
    | Finish(t: Tid)
    | OpenTunnel(t: Tid, x: Tun, captured: bool)
    | DropFresh(t: Tid)
    | Register(t: Tid)
    | CheckDraining(t: Tid)
    | Unwind(t: Tid)
    | Complete(t: Tid)
    | Deregister(t: Tid)
    | CloseTunnel(t: Tid)
    | ReadForBorrow(t: Tid, x: Tun)
    | Borrow(t: Tid)
    | DoRelease(t: Tid)
    | DoFire(t: Tid, u: Uid)
    | IdleCallback(t: Tid)
    | Forward(t: Tid, x: Tun)
    | ForwardFailed(t: Tid)
    | DoEvict(t: Tid)
    | HealSwap(t: Tid)
    | HealFailed(t: Tid)
    | DoBeginDrain(t: Tid)
    | Snapshot(t: Tid)
    | DrainPool(t: Tid)
    | DrainClose(t: Tid, u: Uid)
    | AwaitTunnels(t: Tid)
    | Await(t: Tid, x: Tun, expired: bool)
    | Return(t: Tid)

  function At(s: Surface, t: Tid): Pc {
    if t in s.threads then s.threads[t].pc else Idle
  }

  /** Moves goroutine t to pc; a goroutine seen for the first time starts with nothing behind it. */
  function Goto(s: Surface, t: Tid, pc: Pc): Surface {
    s.(threads := s.threads[t := if t in s.threads then s.threads[t].(pc := pc) else Thread(pc, Live, 0, {}, None)])
  }

  /** Starts a call or task afresh on t. */
  function Begin(s: Surface, t: Tid, pc: Pc): Surface {
    s.(threads := s.threads[t := Thread(pc, Live, 0, {}, None)])
  }

  function DoPassStep(s: Surface, t: Tid, spare: Uid): Surface
    requires At(s, t).Passing?
  {
    var c, th := At(s, t).c, s.threads[t].(passes := s.threads[t].passes + 1);
    var (d, p) := Pass(s.pool, c.key, spare);
    var th' := match d
      case Refused => th.(pc := Failed(c, ShuttingDown))
      case Acquired(u) => th.(pc := Got(c, u))
      case Wait(u) => th.(pc := Parked(c, u))
      case Dial(u) => th.(pc := Dialing(c, u), dialed := Some(u));
    s.(pool := p, threads := s.threads[t := th'])
  }

  /** After waking: a live waiter re-dials behind a canceled dialer, any other failure is inherited. */
  function ObserveStep(s: Surface, t: Tid): Surface
    requires At(s, t).Woken? && At(s, t).u in s.pool.ups
  {
    var Woken(c, u) := At(s, t);
    var x, th := s.pool.ups[u], s.threads[t];
    if x.dialErr && !(x.dialCanceled && th.ctx == Live) then Goto(s, t, Failed(c, DialFailed(u)))
    else s.(threads := s.threads[t := th.(pc := Passing(c), waited := th.waited + {u})])
  }

  function DialDoneStep(s: Surface, t: Tid, ok: bool): Surface
    requires At(s, t).Dialing? && At(s, t).u in s.pool.ups
  {
    var Dialing(c, u) := At(s, t);
    if !ok then
      Goto(s.(pool := DialFails(s.pool, u, s.threads[t].ctx == Canceled)), t, Signalling(u, Failed(c, DialFailed(u))))
    else
      var (installed, p) := DialLands(s.pool, u);
      Goto(s.(pool := p), t, Signalling(u, if installed then Got(c, u) else Closing(u, Failed(c, ShuttingDown))))
  }

  function HealSwapStep(s: Surface, t: Tid): Surface
    requires At(s, t).Got? && At(s, t).c.goal.ForHeal? && At(s, t).c.goal.x in s.tunnels
  {
    var Got(c, u) := At(s, t);
    var ForHeal(x, dead) := c.goal;
    var (won, tn) := Swap(s.tunnels[x], dead, u);
    Goto(s.(tunnels := s.tunnels[x := tn]), t, Releasing(if won then dead else u))
  }

  function DoEvictStep(s: Surface, t: Tid): Surface
    requires At(s, t).Evicting? && At(s, t).up in s.pool.ups && At(s, t).x in s.tunnels
  {
    var Evicting(x, dead) := At(s, t);
    var again := Passing(Call(s.tunnels[x].key, ForHeal(x, dead)));
    var (evicted, p) := Evict(s.pool, dead);
    var pc := if evicted then Closing(dead, again) else again;
    s.(pool := p, threads := s.threads[t := Thread(pc, s.threads[t].ctx, 0, {}, None)])
  }

  function CloseTunnelStep(s: Surface, t: Tid): Surface
    requires At(s, t).Owner? && At(s, t).x in s.tunnels
  {
    var x := At(s, t).x;
    var (first, tn) := MarkClosed(s.tunnels[x]);
    Goto(s.(tunnels := s.tunnels[x := tn]), t, if first then Releasing(s.tunnels[x].up) else Idle)
  }

  function OpenTunnelStep(s: Surface, t: Tid, x: Tun, captured: bool): Surface
    requires At(s, t).Got?
  {
    var Got(c, u) := At(s, t);
    Goto(s.(tunnels := s.tunnels[x := NewTunnel(c.key, c.goal.ForClient?, captured, u)]), t, Owner(x))
  }

  /** The heal's first look under at.mu: a tunnel already healed or closed needs none. */
  function ForwardFailedStep(s: Surface, t: Tid): Surface
    requires At(s, t).Forwarding? && At(s, t).x in s.tunnels
  {
    var Forwarding(x, up) := At(s, t);
    Goto(s, t, if s.tunnels[x].closed || s.tunnels[x].up != up then Idle else Evicting(x, up))
  }

  function DrainPoolStep(s: Surface, t: Tid): Surface
    requires At(s, t).Snapped?
  {
    var (conns, p) := DrainAll(s.pool);
    Goto(s.(pool := p), t, DrainClosing(At(s, t).snap, conns))
  }

  /** The owner of a tunnel moves it to the given phase. */
  function SetPhase(s: Surface, x: Tun, phase: Phase): Surface
    requires x in s.tunnels
  {
    s.(tunnels := s.tunnels[x := s.tunnels[x].(phase := phase)])
  }

  function Owned(s: Surface, t: Tid): Option<Tunnel> {
    if At(s, t).Owner? && At(s, t).x in s.tunnels then Some(s.tunnels[At(s, t).x]) else None
  }

  /** A phase event happens when its tunnel is in the right place; then it lands in the given phase. */
  function PhaseAfter(e: Event, tn: Tunnel, draining: bool): Option<Phase> {
    match e
    case Register(_) =>
      if tn.captured && tn.phase == Opened then Some(Registered) else None
    case CheckDraining(_) =>
      if tn.phase == (if tn.captured then Registered else Opened)
      then Some(if tn.client && draining then Unwinding else Serving) else None
    case Unwind(_) =>
      if tn.phase == Serving then Some(Unwinding) else None
    case Complete(_) =>
      if tn.captured && tn.phase == Unwinding then Some(Completed) else None
    case Deregister(_) =>
      if tn.captured && tn.phase == Completed then Some(Deregistered) else None
    case _ => None
  }

  /** One event; an event whose moment has not come leaves the surface as it is. */
  function Step(s: Surface, e: Event): Surface {
    var pc := At(s, e.t);
    match e
    case Request(t, key, client) =>
      if pc.Idle? then Begin(s, t, Passing(Call(key, if client then ForClient else ForFresh))) else s
    case EndCtx(t, canceled) =>
      if t in s.threads && s.threads[t].ctx == Live
      then s.(threads := s.threads[t := s.threads[t].(ctx := if canceled then Canceled else Expired)]) else s
    case DoPass(t, spare) =>
      if pc.Passing? && spare !in s.pool.ups then DoPassStep(s, t, spare) else s
    case Wake(t) =>
      if pc.Parked? && pc.u in s.pool.ups && s.pool.ups[pc.u].signalled then Goto(s, t, Woken(pc.c, pc.u)) else s
    case Abandon(t) =>
      if pc.Parked? && s.threads[t].ctx != Live then Goto(s, t, Failed(pc.c, CtxDone)) else s
    case Observe(t) =>
      if pc.Woken? && pc.u in s.pool.ups then ObserveStep(s, t) else s
    case DialDone(t, ok) =>
      if pc.Dialing? && pc.u in s.pool.ups then DialDoneStep(s, t, ok) else s
    case DoSignal(t) =>
      if pc.Signalling? && pc.u in s.pool.ups then Goto(s.(pool := Signal(s.pool, pc.u)), t, pc.next) else s
    case DoClose(t) =>
      if pc.Closing? && pc.u in s.pool.ups then Goto(s.(pool := CloseConn(s.pool, pc.u)), t, pc.next) else s
    case Finish(t) =>
      if pc.Forwarding? || (pc.Failed? && !pc.c.goal.ForHeal?) then Goto(s, t, Idle) else s
    case OpenTunnel(t, x, captured) =>
      if pc.Got? && !pc.c.goal.ForHeal? && x !in s.tunnels
      then OpenTunnelStep(s, t, x, captured) else s
    case DropFresh(t) =>
      if pc.Got? && pc.c.goal.ForFresh? then Goto(s, t, Releasing(pc.u)) else s
    case Register(_) | CheckDraining(_) | Unwind(_) | Complete(_) | Deregister(_) =>
      var tn := Owned(s, e.t);
      if tn.Some? && PhaseAfter(e, tn.value, s.pool.draining).Some?
      then SetPhase(s, pc.x, PhaseAfter(e, tn.value, s.pool.draining).value) else s
    case CloseTunnel(t) =>
      if Owned(s, t).Some? && (Owned(s, t).value.captured ==> TornDown(Owned(s, t).value))
      then CloseTunnelStep(s, t) else s
    case ReadForBorrow(t, x) =>
      if pc.Idle? && x in s.tunnels then Begin(s, t, Borrowing(s.tunnels[x].up)) else s
    case Borrow(t) =>
      if pc.Borrowing? && pc.u in s.pool.ups then
        var (ok, p) := TryAcquire(s.pool, pc.u);
        Goto(s.(pool := p), t, if ok then Releasing(pc.u) else Idle)
      else s
    case DoRelease(t) =>
      if pc.Releasing? && pc.u in s.pool.ups then Goto(s.(pool := Release(s.pool, pc.u)), t, Idle) else s
    case DoFire(t, u) =>
      if pc.Idle? && u in s.pool.ups && s.pool.ups[u].timer == Armed
      then Begin(s.(pool := Fire(s.pool, u)), t, Callback(u, s.pool.ups[u].grace)) else s
    case IdleCallback(t) =>
      if pc.Callback? && pc.u in s.pool.ups then
        var (close, p) := IdleClose(s.pool, pc.u);
        Goto(s.(pool := p), t, if close then Closing(pc.u, Idle) else Idle)
      else s
    case Forward(t, x) =>
      if pc.Idle? && x in s.tunnels then Begin(s, t, Forwarding(x, s.tunnels[x].up)) else s
    case ForwardFailed(t) =>
      if pc.Forwarding? && pc.x in s.tunnels then ForwardFailedStep(s, t) else s
    case DoEvict(t) =>
      if pc.Evicting? && pc.up in s.pool.ups && pc.x in s.tunnels then DoEvictStep(s, t) else s
    case HealSwap(t) =>
      if pc.Got? && pc.c.goal.ForHeal? && pc.c.goal.x in s.tunnels then HealSwapStep(s, t) else s
    case HealFailed(t) =>
      if pc.Failed? && pc.c.goal.ForHeal? && pc.c.goal.x in s.tunnels
      then Goto(s.(tunnels := s.tunnels[pc.c.goal.x := MarkHealFailed(s.tunnels[pc.c.goal.x]).1]), t, Idle) else s
    case DoBeginDrain(t) =>
      if pc.Idle? then Begin(s.(pool := BeginDrain(s.pool)), t, DrainBegun) else s
    case Snapshot(t) =>
      if pc.DrainBegun? then Goto(s, t, Snapped(set x | x in s.tunnels && InRegistry(s.tunnels[x]))) else s
    case DrainPool(t) =>
      if pc.Snapped? then DrainPoolStep(s, t) else s
    case DrainClose(t, u) =>
      if pc.DrainClosing? && u in pc.conns && u in s.pool.ups
      then Goto(s.(pool := CloseConn(s.pool, u)), t, DrainClosing(pc.snap, pc.conns - {u})) else s
    case AwaitTunnels(t) =>
      if pc.DrainClosing? && pc.conns == {} then Goto(s, t, Awaiting(pc.snap, pc.snap, 0)) else s
    case Await(t, x, expired) =>
      if pc.Awaiting? && x in pc.todo && x in s.tunnels && (expired || TornDown(s.tunnels[x]))
      then Goto(s, t, Awaiting(pc.snap, pc.todo - {x}, if expired then pc.left + 1 else pc.left)) else s
    case Return(t) =>
      if pc.Awaiting? && pc.todo == {} then Goto(s, t, Drained(pc.snap, pc.left)) else s
  }

  /** A run of the surface from the moment the handler is created. */
  function Run(s: Surface, events: seq<Event>): Surface
    decreases |events|
  {
    if events == [] then s else Step(Run(s, events[..|events| - 1]), events[|events| - 1])
  }
}
