/**
 What every reachable state of the surface keeps. Two kinds of fact are kept apart:
 facts about a goroutine that later steps of others cannot spoil (PcOk), and the exact balance
 between what goroutines and tunnels hold and what the pool has handed out (Balanced).
 */
module SurfaceInvariant {
  import opened Common
  import opened UpstreamPool
  import opened NoiseSurface

  // ---- what a goroutine holds or owes --------------------------------------------

  datatype Token =
    | RefTok(u: Uid)      // one ref on u
    | DialTok(u: Uid)     // the duty to resolve u's dial
    | SignalTok(u: Uid)   // the duty to close u's ready channel
    | CloseTok(u: Uid)    // the duty to close u's connection
    | OwnTok(x: Tun)      // the duty to close tunnel x

  ghost function Tokens(pc: Pc): set<Token> {
    match pc
    case Dialing(_, u) => {RefTok(u), DialTok(u)}
    case Signalling(u, next) => {SignalTok(u)} + Tokens(next)
    case Closing(u, next) => {CloseTok(u)} + Tokens(next)
    case Got(_, u) => {RefTok(u)}
    case Releasing(u) => {RefTok(u)}
    case Owner(x) => {OwnTok(x)}
    case DrainClosing(_, conns) => set u | u in conns :: CloseTok(u)
    case _ => {}
  }

  ghost function HeldByThreads(threads: map<Tid, Thread>, tok: Token): nat {
    Tally(threads, (th: Thread) => tok in Tokens(th.pc))
  }

  /** An open tunnel holds one ref on the upstream it is bound to. */
  ghost function HeldByTunnels(tunnels: map<Tun, Tunnel>, u: Uid): nat {
    Tally(tunnels, (tn: Tunnel) => !tn.closed && tn.up == u)
  }

  ghost function Held(s: Surface, tok: Token): nat {
    HeldByThreads(s.threads, tok) + if tok.RefTok? then HeldByTunnels(s.tunnels, tok.u) else 0
  }

  /** What the pool and the tunnels say is outstanding. */
  ghost function Supply(s: Surface, tok: Token): int {
    match tok
    case RefTok(u) => if u in s.pool.ups && (s.pool.ups[u].dialing || s.pool.ups[u].uc) then s.pool.ups[u].refs else 0
    case DialTok(u) => One(u in s.pool.ups && s.pool.ups[u].dialing)
    case SignalTok(u) => One(u in s.pool.ups && !s.pool.ups[u].dialing && !s.pool.ups[u].signalled)
    case CloseTok(u) => One(u in s.pool.ups && s.pool.ups[u].conn == Open && s.pool.ups[u].closed)
    case OwnTok(x) => One(x in s.tunnels && !s.tunnels[x].closed)
  }

  ghost predicate Balanced(s: Surface) {
    forall tok :: Held(s, tok) == Supply(s, tok)
  }

  // ---- what a goroutine may rely on at each point ---------------------------------

  ghost predicate GoalOk(s: Surface, c: Call) {
    c.goal.ForHeal? ==>
      && c.goal.x in s.tunnels && c.key == s.tunnels[c.goal.x].key && c.goal.dead in s.tunnels[c.goal.x].history
      && c.goal.dead in s.pool.ups && s.pool.ups[c.goal.dead].closed
  }

  /** Every dial this call has waited out is resolved and on its own key; each pass but the last waited out one. */
  ghost predicate LoopOk(s: Surface, th: Thread, c: Call) {
    && GoalOk(s, c)
    && (forall w :: w in th.waited ==> w in s.pool.ups && s.pool.ups[w].key == c.key && !s.pool.ups[w].dialing)
    && th.passes <= |th.waited| + 1
  }

  /** The only reasons a caller is handed an error. */
  ghost predicate WhyOk(s: Surface, th: Thread, why: Why) {
    match why
    case CtxDone => th.ctx != Live
    case ShuttingDown => s.pool.draining
    case DialFailed(u) =>
      && u in s.pool.ups && !s.pool.ups[u].dialing && s.pool.ups[u].dialErr
      && (th.dialed == Some(u) || (th.dialed == None && (!s.pool.ups[u].dialCanceled || th.ctx != Live)))
  }

  ghost predicate On(s: Surface, u: Uid, k: PoolKey) {
    u in s.pool.ups && s.pool.ups[u].key == k
  }

  ghost predicate Installed(s: Surface, u: Uid) {
    u in s.pool.ups && s.pool.ups[u].uc
  }

  /** Every client tunnel that is serving was registered when the drain took its snapshot. */
  ghost predicate SnapOk(s: Surface, snap: set<Tun>) {
    && s.pool.draining && snap <= s.tunnels.Keys
    && (forall x ::
          x in s.tunnels && s.tunnels[x].client && s.tunnels[x].captured && s.tunnels[x].phase == Serving ==> x in snap)
  }

  ghost predicate DrainedOk(s: Surface, snap: set<Tun>, todo: set<Tun>, left: nat) {
    && SnapOk(s, snap) && s.pool.byKey == map[] && todo <= snap
    && (left == 0 ==> forall x :: x in snap && x !in todo ==> TornDown(s.tunnels[x]))
  }

  /** What follows closing a ready channel: the end of one's own dial. */
  ghost predicate AfterSignal(th: Thread, next: Pc) {
    next.Got? || (next.Failed? && th.dialed.Some?) || (next.Closing? && next.next.Failed?)
  }

  /** What follows closing a connection: nothing, the heal's first pass, or the refusal of a drained dial. */
  ghost predicate AfterClose(next: Pc) {
    next.Idle? || next.Passing? || (next.Failed? && next.why.ShuttingDown?)
  }

  ghost predicate PcOk(s: Surface, th: Thread, pc: Pc) {
    match pc
    case Idle => true
    case Passing(c) => LoopOk(s, th, c) && th.passes == |th.waited| && th.dialed == None
    case Parked(c, u) =>
      LoopOk(s, th, c) && th.passes == |th.waited| + 1 && th.dialed == None && On(s, u, c.key) && u !in th.waited
    case Woken(c, u) =>
      && LoopOk(s, th, c) && th.passes == |th.waited| + 1 && th.dialed == None && On(s, u, c.key) && u !in th.waited
      && !s.pool.ups[u].dialing
    case Dialing(c, u) => LoopOk(s, th, c) && th.dialed == Some(u) && On(s, u, c.key)
    case Signalling(u, next) => u in s.pool.ups && !s.pool.ups[u].dialing && AfterSignal(th, next) && PcOk(s, th, next)
    case Closing(u, next) => u in s.pool.ups && s.pool.ups[u].closed && AfterClose(next) && PcOk(s, th, next)
    case Failed(c, why) => LoopOk(s, th, c) && WhyOk(s, th, why) && (why.DialFailed? ==> On(s, why.u, c.key))
    case Got(c, u) =>
      && LoopOk(s, th, c) && On(s, u, c.key) && s.pool.ups[u].uc
      && (c.goal.ForHeal? && s.tunnels[c.goal.x].up == c.goal.dead ==> u !in s.tunnels[c.goal.x].history)
    case Owner(x) => x in s.tunnels
    case Releasing(u) => Installed(s, u)
    case Borrowing(u) => Installed(s, u)
    case Forwarding(x, up) => x in s.tunnels && up in s.tunnels[x].history && Installed(s, up)
    case Evicting(x, up) => x in s.tunnels && up in s.tunnels[x].history && Installed(s, up)
    case Callback(u, grace) =>
      && Installed(s, u) && grace <= s.pool.ups[u].grace
      && (grace == s.pool.ups[u].grace ==> s.pool.ups[u].timer != Armed)
    case DrainBegun => s.pool.draining
    case Snapped(snap) => SnapOk(s, snap)
    case DrainClosing(snap, conns) =>
      DrainedOk(s, snap, snap, 0) && (forall u :: u in conns ==> u in s.pool.ups && s.pool.ups[u].closed)
    case Awaiting(snap, todo, left) => DrainedOk(s, snap, todo, left)
    case Drained(snap, left) => DrainedOk(s, snap, {}, left)
  }

  /** A tunnel's bindings: no upstream twice, all but the current one retired, one warning per failed episode. */
  ghost predicate TunnelOk(s: Surface, tn: Tunnel) {
    && tn.history != [] && tn.up == tn.history[|tn.history| - 1] && tn.bridge == tn.up
    && NoDuplicates(tn.history)
    && (forall i :: 0 <= i < |tn.history| ==> Installed(s, tn.history[i]) && On(s, tn.history[i], tn.key))
    && (forall i :: 0 <= i < |tn.history| - 1 ==> s.pool.ups[tn.history[i]].closed)
    && tn.warnings <= |tn.history| - 1 + One(tn.healFailed)
    && (!tn.captured ==> tn.phase in {Opened, Serving, Unwinding})
    && (tn.captured && tn.closed ==> tn.phase == Deregistered)
  }

  ghost predicate HasCallback(s: Surface, u: Uid, grace: nat) {
    exists t :: t in s.threads && s.threads[t].pc == Callback(u, grace)
  }

  /** An idle upstream is never forgotten: its grace timer is pending or that timer's callback is. */
  ghost predicate NoLeak(s: Surface) {
    forall u :: u in s.pool.ups && s.pool.ups[u].uc && !s.pool.ups[u].closed && s.pool.ups[u].refs == 0 ==>
      s.pool.ups[u].timer == Armed || HasCallback(s, u, s.pool.ups[u].grace)
  }

  ghost predicate ThreadsOk(s: Surface) {
    forall t :: t in s.threads ==> PcOk(s, s.threads[t], s.threads[t].pc)
  }

  ghost predicate TunnelsOk(s: Surface) {
    forall x :: x in s.tunnels ==> TunnelOk(s, s.tunnels[x])
  }

  ghost predicate Inv(s: Surface) {
    PoolOk(s.pool) && ThreadsOk(s) && TunnelsOk(s) && Balanced(s) && NoLeak(s)
  }

  // ---- what can only move one way ---------------------------------------------------

  ghost predicate TunnelGrows(a: Tunnel, b: Tunnel, draining: bool) {
    && a.key == b.key && a.client == b.client && a.captured == b.captured
    && (a.closed ==> b.closed)
    && ((b.up == a.up && b.history == a.history)
        || (!a.closed && b.history == a.history + [b.up] && b.up !in a.history))
    && (TornDown(a) ==> TornDown(b))
    && (draining && b.client && b.phase == Serving ==> a.phase == Serving)
  }

  ghost predicate Grows(s: Surface, s': Surface) {
    && PoolGrows(s.pool, s'.pool)
    && (forall x :: x in s.tunnels ==> x in s'.tunnels && TunnelGrows(s.tunnels[x], s'.tunnels[x], s.pool.draining))
    && (forall x :: x in s'.tunnels && x !in s.tunnels ==> s'.tunnels[x].phase == Opened)
  }

  /** Nothing a goroutine relies on is spoiled by growth. */
  lemma {:induction false} PcStays(s: Surface, s': Surface, th: Thread, pc: Pc)
    requires Grows(s, s') && PcOk(s, th, pc)
    ensures PcOk(s', th, pc)
    decreases pc
  {
    match pc
    case Signalling(u, next) => PcStays(s, s', th, next);
    case Closing(u, next) => PcStays(s, s', th, next);
    case Passing(c) => LoopStays(s, s', th, c);
    case Parked(c, u) => LoopStays(s, s', th, c);
    case Woken(c, u) => LoopStays(s, s', th, c);
    case Dialing(c, u) => LoopStays(s, s', th, c);
    case Failed(c, why) => LoopStays(s, s', th, c);
    case Got(c, u) => LoopStays(s, s', th, c);
    case DrainClosing(snap, conns) => DrainStays(s, s', snap, snap, 0);
    case Awaiting(snap, todo, left) => DrainStays(s, s', snap, todo, left);
    case Drained(snap, left) => DrainStays(s, s', snap, {}, left);
    case _ =>
  }

  lemma LoopStays(s: Surface, s': Surface, th: Thread, c: Call)
    requires Grows(s, s') && LoopOk(s, th, c)
    ensures LoopOk(s', th, c)
  {
  }

  lemma DrainStays(s: Surface, s': Surface, snap: set<Tun>, todo: set<Tun>, left: nat)
    requires Grows(s, s') && DrainedOk(s, snap, todo, left)
    ensures DrainedOk(s', snap, todo, left)
  {
  }
}
