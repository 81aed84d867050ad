/** Every step of the surface keeps its invariant, one small lemma per step. */
module SurfaceSteps {
  import opened Common
  import opened UpstreamPool
  import opened NoiseSurface
  import opened SurfaceInvariant

  // ---- rebuilding the invariant after one goroutine moved ---------------------------

  ghost function Before(s: Surface, t: Tid): set<Token> {
    if t in s.threads then Tokens(s.threads[t].pc) else {}
  }

  /** The balance follows if the supply moves by what goroutine t and tunnel x took on or gave up. */
  ghost predicate Moves(s: Surface, s': Surface, t: Tid, th: Thread, x: Tun) {
    && s'.threads == s.threads[t := th]
    && (s'.tunnels == s.tunnels || (x in s'.tunnels && s'.tunnels == s.tunnels[x := s'.tunnels[x]]))
    && (forall tok :: Supply(s', tok) - Supply(s, tok)
                      == One(tok in Tokens(th.pc)) - One(tok in Before(s, t)) + TunnelMove(s, s', x, tok))
  }

  ghost function TunnelMove(s: Surface, s': Surface, x: Tun, tok: Token): int {
    if !tok.RefTok? then 0
    else One(x in s'.tunnels && !s'.tunnels[x].closed && s'.tunnels[x].up == tok.u)
         - One(x in s.tunnels && !s.tunnels[x].closed && s.tunnels[x].up == tok.u)
  }

  lemma BalanceMoves(s: Surface, s': Surface, t: Tid, th: Thread, x: Tun)
    requires Balanced(s) && Moves(s, s', t, th, x)
    ensures Balanced(s')
  {
    forall tok ensures Held(s', tok) == Supply(s', tok) {
      TallyUpdate(s.threads, t, th, (h: Thread) => tok in Tokens(h.pc));
      if tok.RefTok? && s'.tunnels != s.tunnels {
        TallyUpdate(s.tunnels, x, s'.tunnels[x], (tn: Tunnel) => !tn.closed && tn.up == tok.u);
      }
      assert Held(s, tok) == Supply(s, tok);
    }
  }

  /** A goroutine that holds a token proves that the pool has handed it out. */
  lemma Holds(s: Surface, t: Tid, tok: Token)
    requires Balanced(s) && t in s.threads && tok in Tokens(s.threads[t].pc)
    ensures Supply(s, tok) >= 1
  {
    TallyWitness(s.threads, t, t, (h: Thread) => tok in Tokens(h.pc));
    assert Held(s, tok) == Supply(s, tok);
  }

  ghost predicate Quiet(s: Surface, s': Surface, u: Uid) {
    && u in s.pool.ups && u in s'.pool.ups
    && s'.pool.ups[u] == s.pool.ups[u].(conn := s'.pool.ups[u].conn, signalled := s'.pool.ups[u].signalled)
  }

  /** Idle upstreams keep their timer or callback if t was not that callback and idle upstreams were left alone. */
  lemma LeakMoves(s: Surface, s': Surface, t: Tid, th: Thread)
    requires NoLeak(s) && s'.threads == s.threads[t := th] && !At(s, t).Callback?
    requires forall u :: u in s'.pool.ups && s'.pool.ups[u].uc && !s'.pool.ups[u].closed && s'.pool.ups[u].refs == 0 ==>
      s'.pool.ups[u].timer == Armed || Quiet(s, s', u)
    ensures NoLeak(s')
  {
    forall u | u in s'.pool.ups && s'.pool.ups[u].uc && !s'.pool.ups[u].closed && s'.pool.ups[u].refs == 0
      ensures s'.pool.ups[u].timer == Armed || HasCallback(s', u, s'.pool.ups[u].grace)
    {
      if s'.pool.ups[u].timer != Armed {
        var t0 :| t0 in s.threads && s.threads[t0].pc == Callback(u, s.pool.ups[u].grace);
        assert s'.threads[t0].pc == Callback(u, s.pool.ups[u].grace);
      }
    }
  }

  lemma ThreadsMove(s: Surface, s': Surface, t: Tid, th: Thread)
    requires ThreadsOk(s) && Grows(s, s') && s'.threads == s.threads[t := th] && PcOk(s', th, th.pc)
    ensures ThreadsOk(s')
  {
    forall t' | t' in s'.threads ensures PcOk(s', s'.threads[t'], s'.threads[t'].pc) {
      if t' != t { PcStays(s, s', s.threads[t'], s.threads[t'].pc); }
    }
  }

  lemma TunnelStays(s: Surface, s': Surface, tn: Tunnel)
    requires Grows(s, s') && TunnelOk(s, tn)
    ensures TunnelOk(s', tn)
  {
  }

  lemma TunnelsMove(s: Surface, s': Surface, x: Tun)
    requires TunnelsOk(s) && Grows(s, s')
    requires
      || s'.tunnels == s.tunnels
      || (x in s'.tunnels && s'.tunnels == s.tunnels[x := s'.tunnels[x]] && TunnelOk(s', s'.tunnels[x]))
    ensures TunnelsOk(s')
  {
    forall y | y in s'.tunnels ensures TunnelOk(s', s'.tunnels[y]) {
      if y in s.tunnels && s'.tunnels[y] == s.tunnels[y] { TunnelStays(s, s', s.tunnels[y]); }
    }
  }

  lemma SameMoves(s: Surface, t: Tid, th: Thread)
    requires Before(s, t) == Tokens(th.pc)
    ensures Moves(s, s.(threads := s.threads[t := th]), t, th, 0)
  {
  }

  /** A step that only moves goroutine t, and leaves what it holds as it was. */
  lemma LocalKeeps(s: Surface, t: Tid, th: Thread)
    requires Inv(s) && Tokens(th.pc) == Before(s, t) && !At(s, t).Callback?
    requires PcOk(s, th, th.pc)
    ensures Inv(s.(threads := s.threads[t := th]))
  {
    hide PcOk, TunnelOk, PoolOk, ThreadsOk, TunnelsOk, Balanced, NoLeak, Moves, Tokens;
    var s' := s.(threads := s.threads[t := th]);
    PcStays(s, s', th, th.pc);
    ThreadsMove(s, s', t, th);
    TunnelsMove(s, s', 0);
    SameMoves(s, t, th);
    BalanceMoves(s, s', t, th, 0);
    LeakMoves(s, s', t, th);
  }

  /** A step that moves goroutine t and the pool, tunnels untouched. */
  lemma PoolMoveKeeps(s: Surface, s': Surface, t: Tid, th: Thread)
    requires Inv(s) && PoolOk(s'.pool) && PoolGrows(s.pool, s'.pool) && s'.tunnels == s.tunnels
    requires Moves(s, s', t, th, 0) && PcOk(s', th, th.pc) && NoLeak(s')
    ensures Inv(s')
  {
    hide PcOk, TunnelOk, PoolOk, Supply, Held, NoLeak;
    ThreadsMove(s, s', t, th);
    TunnelsMove(s, s', 0);
    BalanceMoves(s, s', t, th, 0);
  }

  /** What pc may rely on does not depend on the counter stored beside it. */
  lemma {:induction false} PcSame(s: Surface, th: Thread, th': Thread, pc: Pc)
    requires PcOk(s, th, pc) && th' == th.(pc := th'.pc)
    ensures PcOk(s, th', pc)
    decreases pc
  {
    match pc
    case Signalling(u, next) => PcSame(s, th, th', next);
    case Closing(u, next) => PcSame(s, th, th', next);
    case _ =>
  }

  // ---- starting, waiting, giving up ---------------------------------------------------

  lemma RequestKeeps(s: Surface, t: Tid, key: PoolKey, client: bool)
    requires Inv(s) && At(s, t).Idle?
    ensures Inv(Begin(s, t, Passing(Call(key, if client then ForClient else ForFresh))))
  {
    hide PoolOk, TunnelsOk, Balanced, NoLeak, ThreadsOk;
    LocalKeeps(s, t, Thread(Passing(Call(key, if client then ForClient else ForFresh)), Live, 0, {}, None));
  }

  lemma {:induction false} CtxEndsOk(s: Surface, th: Thread, ctx: Ctx, pc: Pc)
    requires PcOk(s, th, pc) && th.ctx == Live && ctx != Live
    ensures PcOk(s, th.(ctx := ctx), pc)
    decreases pc
  {
    match pc
    case Signalling(u, next) => CtxEndsOk(s, th, ctx, next);
    case Closing(u, next) => CtxEndsOk(s, th, ctx, next);
    case _ =>
  }

  lemma EndCtxKeeps(s: Surface, t: Tid, canceled: bool)
    requires Inv(s) && t in s.threads && s.threads[t].ctx == Live
    ensures Inv(s.(threads := s.threads[t := s.threads[t].(ctx := if canceled then Canceled else Expired)]))
  {
    hide TunnelOk, PoolOk, Held, PcOk, Supply;
    var ctx := if canceled then Canceled else Expired;
    var th := s.threads[t].(ctx := ctx);
    var s' := s.(threads := s.threads[t := th]);
    CtxEndsOk(s, s.threads[t], ctx, s.threads[t].pc);
    PcStays(s, s', th, th.pc);
    ThreadsMove(s, s', t, th);
    TunnelsMove(s, s', 0);
    SameMoves(s, t, th);
    BalanceMoves(s, s', t, th, 0);
    forall u, g | HasCallback(s, u, g) ensures HasCallback(s', u, g) {
      var t0 :| t0 in s.threads && s.threads[t0].pc == Callback(u, g);
      assert s'.threads[t0].pc == Callback(u, g);
    }
  }

  ghost predicate Ready(s: Surface, t: Tid) {
    Inv(s) && t in s.threads && PcOk(s, s.threads[t], s.threads[t].pc)
  }

  lemma WakeKeeps(s: Surface, t: Tid)
    requires Ready(s, t) && At(s, t).Parked? && At(s, t).u in s.pool.ups && s.pool.ups[At(s, t).u].signalled
    requires !s.pool.ups[At(s, t).u].dialing
    ensures Inv(Goto(s, t, Woken(At(s, t).c, At(s, t).u)))
  {
    hide PoolOk, TunnelsOk, Balanced, NoLeak, ThreadsOk;
    LocalKeeps(s, t, s.threads[t].(pc := Woken(At(s, t).c, At(s, t).u)));
  }

  lemma AbandonKeeps(s: Surface, t: Tid)
    requires Ready(s, t) && At(s, t).Parked? && s.threads[t].ctx != Live
    ensures Inv(Goto(s, t, Failed(At(s, t).c, CtxDone)))
  {
    hide PoolOk, TunnelsOk, Balanced, NoLeak, ThreadsOk;
    LocalKeeps(s, t, s.threads[t].(pc := Failed(At(s, t).c, CtxDone)));
  }

  lemma ObserveKeeps(s: Surface, t: Tid)
    requires Ready(s, t) && At(s, t).Woken? && At(s, t).u in s.pool.ups
    ensures Inv(ObserveStep(s, t))
  {
    hide PoolOk, TunnelsOk, Balanced, NoLeak, ThreadsOk;
    LocalKeeps(s, t, ObserveStep(s, t).threads[t]);
  }

  lemma FinishKeeps(s: Surface, t: Tid)
    requires Ready(s, t) && (At(s, t).Forwarding? || (At(s, t).Failed? && !At(s, t).c.goal.ForHeal?))
    ensures Inv(Goto(s, t, Idle))
  {
    hide PoolOk, TunnelsOk, Balanced, NoLeak, ThreadsOk;
    LocalKeeps(s, t, s.threads[t].(pc := Idle));
  }

  lemma DropFreshKeeps(s: Surface, t: Tid)
    requires Ready(s, t) && At(s, t).Got? && At(s, t).c.goal.ForFresh?
    ensures Inv(Goto(s, t, Releasing(At(s, t).u)))
  {
    hide PoolOk, TunnelsOk, Balanced, NoLeak, ThreadsOk;
    LocalKeeps(s, t, s.threads[t].(pc := Releasing(At(s, t).u)));
  }

  lemma ReadForBorrowKeeps(s: Surface, t: Tid, x: Tun)
    requires Inv(s) && At(s, t).Idle? && x in s.tunnels && TunnelOk(s, s.tunnels[x])
    ensures Inv(Begin(s, t, Borrowing(s.tunnels[x].up)))
  {
    hide PoolOk, TunnelsOk, Balanced, NoLeak, ThreadsOk;
    LocalKeeps(s, t, Thread(Borrowing(s.tunnels[x].up), Live, 0, {}, None));
  }

  lemma ForwardKeeps(s: Surface, t: Tid, x: Tun)
    requires Inv(s) && At(s, t).Idle? && x in s.tunnels && TunnelOk(s, s.tunnels[x])
    ensures Inv(Begin(s, t, Forwarding(x, s.tunnels[x].up)))
  {
    hide PoolOk, TunnelsOk, Balanced, NoLeak, ThreadsOk;
    LocalKeeps(s, t, Thread(Forwarding(x, s.tunnels[x].up), Live, 0, {}, None));
  }

  lemma ForwardFailedKeeps(s: Surface, t: Tid)
    requires Ready(s, t) && At(s, t).Forwarding? && At(s, t).x in s.tunnels
    ensures Inv(ForwardFailedStep(s, t))
  {
    hide PoolOk, TunnelsOk, Balanced, NoLeak, ThreadsOk;
    LocalKeeps(s, t, ForwardFailedStep(s, t).threads[t]);
  }

  ghost function About(u: Uid): set<Token> {
    {RefTok(u), DialTok(u), SignalTok(u), CloseTok(u)}
  }

  /** A step that touches one upstream only has to balance the tokens about it. */
  lemma UpMoves(s: Surface, s': Surface, t: Tid, th: Thread, u: Uid, before: set<Token>, after: set<Token>)
    requires u in s'.pool.ups && s'.pool.ups == s.pool.ups[u := s'.pool.ups[u]]
    requires s'.tunnels == s.tunnels && s'.threads == s.threads[t := th]
    requires Before(s, t) == before <= About(u) && Tokens(th.pc) == after <= About(u)
    requires forall tok :: tok in About(u) ==>
        Supply(s', tok) - Supply(s, tok) == One(tok in after) - One(tok in before)
    ensures Moves(s, s', t, th, 0)
  {
  }

  lemma TunnelIsOk(s: Surface, x: Tun)
    requires Inv(s) && x in s.tunnels
    ensures TunnelOk(s, s.tunnels[x])
  {
  }

  lemma UpstreamIsOk(s: Surface, u: Uid)
    requires Inv(s) && u in s.pool.ups
    ensures UpstreamOk(s.pool.ups[u], s.pool.draining)
  {
    hide PcOk, TunnelOk, Balanced, NoLeak, MapSound, MapComplete, DialsApart;
  }

  // ---- the pool's own steps ---------------------------------------------------------------

  lemma DoPassKeeps(s: Surface, t: Tid, spare: Uid)
    requires Ready(s, t) && At(s, t).Passing? && spare !in s.pool.ups
    ensures Inv(DoPassStep(s, t, spare))
  {
    hide PcOk, TunnelOk, ThreadsOk, TunnelsOk, PoolOk, Balanced, Moves, NoLeak, PoolGrows, Supply, Tokens;
    var s' := DoPassStep(s, t, spare);
    PassKeeps(s.pool, At(s, t).c.key, spare);
    if s'.threads[t].pc.Got? { UpstreamIsOk(s, s'.threads[t].pc.u); }
    PassGivesOk(s, t, spare);
    PassMoves(s, t, spare);
    LeakMoves(s, s', t, s'.threads[t]);
    PoolMoveKeeps(s, s', t, s'.threads[t]);
  }

  lemma PassGivesOk(s: Surface, t: Tid, spare: Uid)
    requires Ready(s, t) && At(s, t).Passing? && spare !in s.pool.ups
    ensures var s' := DoPassStep(s, t, spare); PcOk(s', s'.threads[t], s'.threads[t].pc)
  {
    hide PoolOk, NoLeak, Balanced, TunnelsOk, ThreadsOk, TunnelOk;
    var s', c := DoPassStep(s, t, spare), At(s, t).c;
    PassKeeps(s.pool, c.key, spare);
    LoopStays(s, s', s.threads[t], c);
    if s'.threads[t].pc.Got? && c.goal.ForHeal? && s.tunnels[c.goal.x].up == c.goal.dead {
      LiveIsNew(s, c.goal.x, c.goal.dead, s'.threads[t].pc.u);
    }
  }

  /** While a tunnel is still bound to a retired upstream, no live upstream is in its history. */
  lemma LiveIsNew(s: Surface, x: Tun, dead: Uid, u: Uid)
    requires Inv(s) && x in s.tunnels && s.tunnels[x].up == dead && dead in s.pool.ups && s.pool.ups[dead].closed
    requires u in s.pool.ups && !s.pool.ups[u].closed
    ensures u !in s.tunnels[x].history
  {
    hide ThreadsOk, PoolOk, NoLeak, Balanced;
    assert TunnelOk(s, s.tunnels[x]);
  }

  lemma PassMoves(s: Surface, t: Tid, spare: Uid)
    requires Ready(s, t) && At(s, t).Passing? && spare !in s.pool.ups
    ensures Moves(s, DoPassStep(s, t, spare), t, DoPassStep(s, t, spare).threads[t], 0)
  {
    hide PcOk, TunnelOk, ThreadsOk, TunnelsOk, PoolOk, Balanced, Moves, NoLeak, PoolGrows;
    var s', c := DoPassStep(s, t, spare), At(s, t).c;
    PassKeeps(s.pool, c.key, spare);
    match Pass(s.pool, c.key, spare).0
    case Refused => SameMoves(s, t, s'.threads[t]);
    case Wait(u) => SameMoves(s, t, s'.threads[t]);
    case Acquired(u) => UpMoves(s, s', t, s'.threads[t], u, {}, {RefTok(u)});
    case Dial(u) => UpMoves(s, s', t, s'.threads[t], u, {}, {RefTok(u), DialTok(u)});
  }

  lemma DialDoneKeeps(s: Surface, t: Tid, ok: bool)
    requires Ready(s, t) && At(s, t).Dialing? && At(s, t).u in s.pool.ups && s.pool.ups[At(s, t).u].dialing
    ensures Inv(DialDoneStep(s, t, ok))
  {
    hide PcOk, TunnelOk, ThreadsOk, TunnelsOk, PoolOk, Balanced, Moves, NoLeak, PoolGrows, Supply, Tokens;
    var u, s' := At(s, t).u, DialDoneStep(s, t, ok);
    if ok { DialLandsKeeps(s.pool, u); } else { DialFailsKeeps(s.pool, u, s.threads[t].ctx == Canceled); }
    UpstreamIsOk(s, u);
    DialGivesOk(s, t, ok);
    DialMoves(s, t, ok);
    LeakMoves(s, s', t, s'.threads[t]);
    PoolMoveKeeps(s, s', t, s'.threads[t]);
  }

  lemma DialGivesOk(s: Surface, t: Tid, ok: bool)
    requires Ready(s, t) && At(s, t).Dialing? && At(s, t).u in s.pool.ups && s.pool.ups[At(s, t).u].dialing
    ensures var s' := DialDoneStep(s, t, ok); PcOk(s', s'.threads[t], s'.threads[t].pc)
  {
    hide Inv, PcOk, LoopOk, PoolGrows;
    var Dialing(c, u) := At(s, t);
    DialerLoop(s, s.threads[t], c, u);
    if ok {
      if c.goal.ForHeal? && !s.pool.ups[u].closed { UninstalledIsNew(s, c.goal.x, u); }
      LandedOk(s, t, c, u);
    } else {
      FailureOk(s, t, c, u);
    }
  }

  lemma FailureOk(s: Surface, t: Tid, c: Call, u: Uid)
    requires Inv(s) && At(s, t) == Dialing(c, u) && u in s.pool.ups && s.pool.ups[u].dialing
    requires LoopOk(s, s.threads[t], c) && s.threads[t].dialed == Some(u) && On(s, u, c.key)
    ensures var s' := DialDoneStep(s, t, false); PcOk(s', s'.threads[t], s'.threads[t].pc)
  {
    hide PcOk, LoopOk, ThreadsOk, TunnelsOk, Balanced, NoLeak, PoolOk;
    var s' := DialDoneStep(s, t, false);
    var th := s'.threads[t];
    DialFailsKeeps(s.pool, u, s.threads[t].ctx == Canceled);
    LoopStays(s, s', s.threads[t], c);
    LoopSame(s', s.threads[t], th, c);
    FailedOk(s', th, c, DialFailed(u));
    SignallingOk(s', th, u, Failed(c, DialFailed(u)));
  }

  lemma LandedOk(s: Surface, t: Tid, c: Call, u: Uid)
    requires Inv(s) && At(s, t) == Dialing(c, u) && u in s.pool.ups && s.pool.ups[u].dialing
    requires LoopOk(s, s.threads[t], c) && GoalOk(s, c) && On(s, u, c.key)
    requires c.goal.ForHeal? && !s.pool.ups[u].closed ==> u !in s.tunnels[c.goal.x].history
    ensures var s' := DialDoneStep(s, t, true); PcOk(s', s'.threads[t], s'.threads[t].pc)
  {
    hide PcOk, LoopOk, ThreadsOk, TunnelsOk, Balanced, NoLeak, PoolOk;
    var s' := DialDoneStep(s, t, true);
    var th := s'.threads[t];
    DialLandsKeeps(s.pool, u);
    LoopStays(s, s', s.threads[t], c);
    LoopSame(s', s.threads[t], th, c);
    if s.pool.ups[u].closed {
      FailedOk(s', th, c, ShuttingDown);
      ClosingOk(s', th, u, Failed(c, ShuttingDown));
      SignallingOk(s', th, u, Closing(u, Failed(c, ShuttingDown)));
    } else {
      GotOk(s', th, c, u);
      SignallingOk(s', th, u, Got(c, u));
    }
  }

  lemma DialerLoop(s: Surface, th: Thread, c: Call, u: Uid)
    requires PcOk(s, th, Dialing(c, u))
    ensures LoopOk(s, th, c) && GoalOk(s, c) && th.dialed == Some(u) && On(s, u, c.key)
  {
  }

  lemma LoopSame(s: Surface, th: Thread, th': Thread, c: Call)
    requires LoopOk(s, th, c) && th' == th.(pc := th'.pc)
    ensures LoopOk(s, th', c)
  {
  }

  lemma FailedOk(s: Surface, th: Thread, c: Call, why: Why)
    requires LoopOk(s, th, c) && WhyOk(s, th, why) && (why.DialFailed? ==> On(s, why.u, c.key))
    ensures PcOk(s, th, Failed(c, why))
  {
  }

  lemma GotOk(s: Surface, th: Thread, c: Call, u: Uid)
    requires LoopOk(s, th, c) && On(s, u, c.key) && s.pool.ups[u].uc
    requires c.goal.ForHeal? ==> c.goal.x in s.tunnels && u !in s.tunnels[c.goal.x].history
    ensures PcOk(s, th, Got(c, u))
  {
  }

  lemma ClosingOk(s: Surface, th: Thread, u: Uid, next: Pc)
    requires u in s.pool.ups && s.pool.ups[u].closed && AfterClose(next) && PcOk(s, th, next)
    ensures PcOk(s, th, Closing(u, next))
  {
  }

  lemma SignallingOk(s: Surface, th: Thread, u: Uid, next: Pc)
    requires u in s.pool.ups && !s.pool.ups[u].dialing && AfterSignal(th, next) && PcOk(s, th, next)
    ensures PcOk(s, th, Signalling(u, next))
  {
  }

  /** No tunnel was ever bound to an upstream whose dial has not landed. */
  lemma UninstalledIsNew(s: Surface, x: Tun, u: Uid)
    requires Inv(s) && x in s.tunnels && u in s.pool.ups && s.pool.ups[u].dialing
    ensures u !in s.tunnels[x].history
  {
    hide ThreadsOk, MapSound, MapComplete, DialsApart, NoLeak, Balanced;
    assert TunnelOk(s, s.tunnels[x]);
  }

  lemma DialMoves(s: Surface, t: Tid, ok: bool)
    requires At(s, t).Dialing? && At(s, t).u in s.pool.ups && s.pool.ups[At(s, t).u].dialing
    requires UpstreamOk(s.pool.ups[At(s, t).u], s.pool.draining)
    ensures Moves(s, DialDoneStep(s, t, ok), t, DialDoneStep(s, t, ok).threads[t], 0)
  {
    hide Moves;
    var Dialing(c, u) := At(s, t);
    var s' := DialDoneStep(s, t, ok);
    var next := s'.threads[t].pc.next;
    assert Tokens(next) == if next.Got? then {RefTok(u)} else if next.Closing? then {CloseTok(u)} else {} by {
      if next.Closing? { assert Tokens(next.next) == {}; }
    }
    UpMoves(s, s', t, s'.threads[t], u, {RefTok(u), DialTok(u)}, {SignalTok(u)} + Tokens(next));
  }

  /** What is left owing after a signal or a close is neither of them. */
  lemma NextTokens(s: Surface, th: Thread, pc: Pc)
    requires (pc.Signalling? || pc.Closing?) && PcOk(s, th, pc)
    ensures PcOk(s, th, pc.next) && SignalTok(pc.u) !in Tokens(pc.next)
    ensures pc.Closing? ==> Tokens(pc.next) == {}
    ensures pc.Signalling? ==> Tokens(pc) == Tokens(pc.next) + {SignalTok(pc.u)}
    ensures pc.Closing? ==> Tokens(pc) == {CloseTok(pc.u)}
  {
    hide LoopOk, WhyOk, DrainedOk, SnapOk, Installed, On;
    if pc.next.Closing? { assert PcOk(s, th, pc.next) && Tokens(pc.next.next) == {}; }
  }

  lemma DoSignalKeeps(s: Surface, t: Tid)
    requires Ready(s, t) && At(s, t).Signalling? && At(s, t).u in s.pool.ups
    requires !s.pool.ups[At(s, t).u].signalled && !s.pool.ups[At(s, t).u].dialing
    ensures Inv(Goto(s.(pool := Signal(s.pool, At(s, t).u)), t, At(s, t).next))
  {
    hide PcOk, TunnelOk, ThreadsOk, TunnelsOk, PoolOk, Balanced, Moves, NoLeak, PoolGrows, Supply, Tokens;
    var Signalling(u, next) := At(s, t);
    var s' := Goto(s.(pool := Signal(s.pool, u)), t, next);
    SignalKeeps(s.pool, u);
    NextTokens(s, s.threads[t], At(s, t));
    PcSame(s, s.threads[t], s'.threads[t], next);
    PcStays(s, s', s'.threads[t], next);
    SignalMoves(s, t);
    LeakMoves(s, s', t, s'.threads[t]);
    PoolMoveKeeps(s, s', t, s'.threads[t]);
  }

  lemma SignalMoves(s: Surface, t: Tid)
    requires At(s, t).Signalling? && At(s, t).u in s.pool.ups && SignalTok(At(s, t).u) !in Tokens(At(s, t).next)
    requires !s.pool.ups[At(s, t).u].signalled && !s.pool.ups[At(s, t).u].dialing
    ensures var s' := Goto(s.(pool := Signal(s.pool, At(s, t).u)), t, At(s, t).next); Moves(s, s', t, s'.threads[t], 0)
  {
    assert Tokens(At(s, t)) == {SignalTok(At(s, t).u)} + Tokens(At(s, t).next);
  }

  lemma DoCloseKeeps(s: Surface, t: Tid)
    requires Ready(s, t) && At(s, t).Closing? && At(s, t).u in s.pool.ups
    requires s.pool.ups[At(s, t).u].conn == Open && s.pool.ups[At(s, t).u].closed
    ensures Inv(Goto(s.(pool := CloseConn(s.pool, At(s, t).u)), t, At(s, t).next))
  {
    hide PcOk, TunnelOk, ThreadsOk, TunnelsOk, PoolOk, Balanced, Moves, NoLeak, PoolGrows, Supply, Tokens;
    var Closing(u, next) := At(s, t);
    var s' := Goto(s.(pool := CloseConn(s.pool, u)), t, next);
    CloseConnKeeps(s.pool, u);
    NextTokens(s, s.threads[t], At(s, t));
    PcSame(s, s.threads[t], s'.threads[t], next);
    PcStays(s, s', s'.threads[t], next);
    CloseMoves(s, s', t, u);
    LeakMoves(s, s', t, s'.threads[t]);
    PoolMoveKeeps(s, s', t, s'.threads[t]);
  }

  lemma CloseMoves(s: Surface, s': Surface, t: Tid, u: Uid)
    requires u in s.pool.ups && s.pool.ups[u].conn == Open && s.pool.ups[u].closed
    requires t in s'.threads && s' == s.(pool := CloseConn(s.pool, u), threads := s.threads[t := s'.threads[t]])
    requires Before(s, t) == {CloseTok(u)} && Tokens(s'.threads[t].pc) == {}
    ensures Moves(s, s', t, s'.threads[t], 0)
  {
    hide Moves, Tokens;
    UpMoves(s, s', t, s'.threads[t], u, {CloseTok(u)}, {});
  }

  lemma BorrowKeeps(s: Surface, t: Tid)
    requires Inv(s) && At(s, t).Borrowing? && Installed(s, At(s, t).u)
    ensures var (ok, p) := TryAcquire(s.pool, At(s, t).u);
      Inv(Goto(s.(pool := p), t, if ok then Releasing(At(s, t).u) else Idle))
  {
    hide PcOk, TunnelOk, ThreadsOk, TunnelsOk, PoolOk, Balanced, Moves, NoLeak, PoolGrows, Supply, Tokens;
    var u := At(s, t).u;
    var (ok, p) := TryAcquire(s.pool, u);
    var s' := Goto(s.(pool := p), t, if ok then Releasing(u) else Idle);
    TryAcquireKeeps(s.pool, u);
    UpstreamIsOk(s, u);
    BorrowMoves(s, s', t, u);
    PcIdle(s', s'.threads[t]);
    PcReleasing(s', s'.threads[t], u);
    LeakMoves(s, s', t, s'.threads[t]);
    PoolMoveKeeps(s, s', t, s'.threads[t]);
  }

  lemma BorrowMoves(s: Surface, s': Surface, t: Tid, u: Uid)
    requires Installed(s, u) && At(s, t) == Borrowing(u)
    requires s' == Goto(s.(pool := TryAcquire(s.pool, u).1), t, if TryAcquire(s.pool, u).0 then Releasing(u) else Idle)
    ensures Moves(s, s', t, s'.threads[t], 0)
  {
    hide Moves;
    if TryAcquire(s.pool, u).0 {
      UpMoves(s, s', t, s'.threads[t], u, {}, {RefTok(u)});
    } else {
      SameMoves(s, t, s'.threads[t]);
    }
  }

  lemma PcIdle(s: Surface, th: Thread)
    ensures PcOk(s, th, Idle)
  {
  }

  lemma PcReleasing(s: Surface, th: Thread, u: Uid)
    requires Installed(s, u)
    ensures PcOk(s, th, Releasing(u))
  {
  }

  lemma DoReleaseKeeps(s: Surface, t: Tid)
    requires Inv(s) && At(s, t).Releasing? && Installed(s, At(s, t).u) && s.pool.ups[At(s, t).u].refs > 0
    ensures Inv(Goto(s.(pool := Release(s.pool, At(s, t).u)), t, Idle))
  {
    hide PcOk, TunnelOk, ThreadsOk, TunnelsOk, PoolOk, Balanced, Moves, NoLeak, PoolGrows, Supply, Tokens;
    var u := At(s, t).u;
    var s' := Goto(s.(pool := Release(s.pool, u)), t, Idle);
    ReleaseKeeps(s.pool, u);
    ReleaseMoves(s, s', t, u);
    PcIdle(s', s'.threads[t]);
    LeakMoves(s, s', t, s'.threads[t]);
    PoolMoveKeeps(s, s', t, s'.threads[t]);
  }

  lemma ReleaseMoves(s: Surface, s': Surface, t: Tid, u: Uid)
    requires At(s, t) == Releasing(u) && Installed(s, u) && s' == Goto(s.(pool := Release(s.pool, u)), t, Idle)
    ensures Moves(s, s', t, s'.threads[t], 0)
  {
    hide Moves;
    UpMoves(s, s', t, s'.threads[t], u, {RefTok(u)}, {});
  }

  lemma CallbackSurvives(s: Surface, s': Surface, t: Tid, u: Uid, grace: nat)
    requires HasCallback(s, u, grace) && At(s, t) != Callback(u, grace)
    requires t in s'.threads && s'.threads == s.threads[t := s'.threads[t]]
    ensures HasCallback(s', u, grace)
  {
    var t0 :| t0 in s.threads && s.threads[t0].pc == Callback(u, grace);
    assert s'.threads[t0].pc == Callback(u, grace);
  }

  lemma DoFireKeeps(s: Surface, t: Tid, u: Uid)
    requires Inv(s) && At(s, t).Idle? && u in s.pool.ups && s.pool.ups[u].timer == Armed
    ensures Inv(Begin(s.(pool := Fire(s.pool, u)), t, Callback(u, s.pool.ups[u].grace)))
  {
    hide PcOk, TunnelOk, ThreadsOk, TunnelsOk, PoolOk, Balanced, Moves, NoLeak, PoolGrows, Supply, Tokens;
    var s' := Begin(s.(pool := Fire(s.pool, u)), t, Callback(u, s.pool.ups[u].grace));
    FireKeeps(s.pool, u);
    UpstreamIsOk(s, u);
    FireGivesOk(s, s', t, u);
    FireMoves(s, s', t, u);
    PoolMoveKeeps(s, s', t, s'.threads[t]);
  }

  lemma FireGivesOk(s: Surface, s': Surface, t: Tid, u: Uid)
    requires NoLeak(s) && At(s, t).Idle? && Installed(s, u)
    requires s' == Begin(s.(pool := Fire(s.pool, u)), t, Callback(u, s.pool.ups[u].grace))
    ensures PcOk(s', s'.threads[t], s'.threads[t].pc) && NoLeak(s')
  {
    forall v, g | HasCallback(s, v, g) ensures HasCallback(s', v, g) { CallbackSurvives(s, s', t, v, g); }
    assert s'.threads[t].pc == Callback(u, s.pool.ups[u].grace);
  }

  lemma FireMoves(s: Surface, s': Surface, t: Tid, u: Uid)
    requires At(s, t).Idle? && u in s.pool.ups
    requires s' == Begin(s.(pool := Fire(s.pool, u)), t, Callback(u, s.pool.ups[u].grace))
    ensures Moves(s, s', t, s'.threads[t], 0)
  {
    hide Moves;
    UpMoves(s, s', t, s'.threads[t], u, {}, {});
  }

  lemma IdleCallbackKeeps(s: Surface, t: Tid)
    requires Inv(s) && At(s, t).Callback? && Installed(s, At(s, t).u)
    ensures var (close, p) := IdleClose(s.pool, At(s, t).u);
      Inv(Goto(s.(pool := p), t, if close then Closing(At(s, t).u, Idle) else Idle))
  {
    hide PcOk, TunnelOk, ThreadsOk, TunnelsOk, PoolOk, Balanced, Moves, NoLeak, PoolGrows, Supply;
    var u := At(s, t).u;
    var (close, p) := IdleClose(s.pool, u);
    var s' := Goto(s.(pool := p), t, if close then Closing(u, Idle) else Idle);
    IdleCloseKeeps(s.pool, u);
    UpstreamIsOk(s, u);
    PcIdle(s', s'.threads[t]);
    if close { ClosingOk(s', s'.threads[t], u, Idle); }
    CallbackLeak(s, s', t, u);
    RetireMoves(s, s', t, u, Idle);
    PoolMoveKeeps(s, s', t, s'.threads[t]);
  }

  lemma CallbackLeak(s: Surface, s': Surface, t: Tid, u: Uid)
    requires NoLeak(s) && At(s, t).Callback? && At(s, t).u == u && Installed(s, u)
    requires t in s'.threads && s' == s.(pool := IdleClose(s.pool, u).1, threads := s.threads[t := s'.threads[t]])
    ensures NoLeak(s')
  {
    // only callbacks of u are lost, and u is now either closed or in use
    forall v, g | HasCallback(s, v, g) && v != u ensures HasCallback(s', v, g) { CallbackSurvives(s, s', t, v, g); }
  }

  /** Retiring a live upstream puts the duty to close its connection on goroutine t. */
  lemma RetireMoves(s: Surface, s': Surface, t: Tid, u: Uid, next: Pc)
    requires Installed(s, u) && UpstreamOk(s.pool.ups[u], s.pool.draining) && Before(s, t) == {} && Tokens(next) == {}
    requires u in s'.pool.ups && t in s'.threads
    requires s'.tunnels == s.tunnels && s'.threads == s.threads[t := s'.threads[t]]
    requires s'.threads[t].pc
      == if s.pool.ups[u].closed || s'.pool.ups[u] == s.pool.ups[u] then next else Closing(u, next)
    requires s'.pool.ups == s.pool.ups[u := s'.pool.ups[u]]
    requires
      || s'.pool.ups[u] == s.pool.ups[u]
      || s'.pool.ups[u] == s.pool.ups[u].(closed := true, timer := s'.pool.ups[u].timer)
    requires s.pool.ups[u].closed ==> s'.pool.ups[u] == s.pool.ups[u]
    ensures Moves(s, s', t, s'.threads[t], 0)
  {
    hide Moves;
    UpMoves(s, s', t, s'.threads[t], u, {}, if s'.pool.ups[u] == s.pool.ups[u] then {} else {CloseTok(u)});
  }

  lemma DoEvictKeeps(s: Surface, t: Tid)
    requires Ready(s, t) && At(s, t).Evicting? && At(s, t).up in s.pool.ups && At(s, t).x in s.tunnels
    ensures Inv(DoEvictStep(s, t))
  {
    hide PcOk, TunnelOk, ThreadsOk, TunnelsOk, PoolOk, Balanced, Moves, NoLeak, PoolGrows, Supply;
    var Evicting(x, dead) := At(s, t);
    var s' := DoEvictStep(s, t);
    EvictGivesOk(s, t);
    EvictKeeps(s.pool, dead);
    UpstreamIsOk(s, dead);
    RetireMoves(s, s', t, dead, Passing(Call(s.tunnels[x].key, ForHeal(x, dead))));
    LeakMoves(s, s', t, s'.threads[t]);
    PoolMoveKeeps(s, s', t, s'.threads[t]);
  }

  lemma EvictGivesOk(s: Surface, t: Tid)
    requires At(s, t).Evicting? && PcOk(s, s.threads[t], At(s, t))
    ensures var s' := DoEvictStep(s, t); PcOk(s', s'.threads[t], s'.threads[t].pc) && Installed(s, At(s, t).up)
  {
    var Evicting(x, dead) := At(s, t);
    var s' := DoEvictStep(s, t);
    assert PcOk(s', s'.threads[t], Passing(Call(s.tunnels[x].key, ForHeal(x, dead))));
  }

  // ---- tunnels -------------------------------------------------------------------------------

  /** A step that only changes tunnel x, as it may grow, and moves goroutine t. */
  lemma TunnelMoveKeeps(s: Surface, s': Surface, t: Tid, th: Thread, x: Tun)
    requires Inv(s) && Grows(s, s') && s'.pool == s.pool && !At(s, t).Callback?
    requires x in s'.tunnels && s'.tunnels == s.tunnels[x := s'.tunnels[x]] && TunnelOk(s', s'.tunnels[x])
    requires Moves(s, s', t, th, x) && PcOk(s', th, th.pc)
    ensures Inv(s')
  {
    hide PcOk, TunnelOk, PoolOk, Supply, NoLeak, ThreadsOk, TunnelsOk, Balanced, TunnelMove;
    ThreadsMove(s, s', t, th);
    TunnelsMove(s, s', x);
    BalanceMoves(s, s', t, th, x);
    LeakMoves(s, s', t, th);
  }

  lemma OpenTunnelKeeps(s: Surface, t: Tid, x: Tun, captured: bool)
    requires Inv(s) && At(s, t).Got? && !At(s, t).c.goal.ForHeal? && x !in s.tunnels && PcOk(s, s.threads[t], At(s, t))
    ensures Inv(OpenTunnelStep(s, t, x, captured))
  {
    hide ThreadsOk, TunnelsOk, PoolOk, NoLeak, Balanced, Moves;
    var s' := OpenTunnelStep(s, t, x, captured);
    OpenMoves(s, t, x, captured);
    TunnelMoveKeeps(s, s', t, s'.threads[t], x);
  }

  lemma OpenMoves(s: Surface, t: Tid, x: Tun, captured: bool)
    requires At(s, t).Got? && x !in s.tunnels
    ensures var s' := OpenTunnelStep(s, t, x, captured); Moves(s, s', t, s'.threads[t], x)
  {
  }

  /** A step that changes tunnel x in place and moves goroutine t to pc. */
  lemma TunnelChangeKeeps(s: Surface, t: Tid, x: Tun, tn: Tunnel, pc: Pc)
    requires Inv(s) && t in s.threads && x in s.tunnels && !At(s, t).Callback?
    requires TunnelGrows(s.tunnels[x], tn, s.pool.draining) && TunnelOk(s, tn)
    requires PcOk(s, s.threads[t], pc)
    requires Moves(s, Goto(s.(tunnels := s.tunnels[x := tn]), t, pc), t, s.threads[t].(pc := pc), x)
    ensures Inv(Goto(s.(tunnels := s.tunnels[x := tn]), t, pc))
  {
    hide PcOk, TunnelOk, PoolOk, Supply, Held, NoLeak, ThreadsOk, TunnelsOk, Balanced, Moves;
    var s' := Goto(s.(tunnels := s.tunnels[x := tn]), t, pc);
    PcSame(s, s.threads[t], s'.threads[t], pc);
    PcStays(s, s', s'.threads[t], pc);
    TunnelStays(s, s', tn);
    TunnelMoveKeeps(s, s', t, s'.threads[t], x);
  }

  /** What goroutine t must take over when tunnel x changes from a to b. */
  ghost function TunnelTrade(a: Tunnel, b: Tunnel, x: Tun, tok: Token): int {
    match tok
    case RefTok(u) => One(!a.closed && a.up == u) - One(!b.closed && b.up == u)
    case OwnTok(y) => if y == x then One(!b.closed) - One(!a.closed) else 0
    case _ => 0
  }

  lemma TunnelMoves(s: Surface, t: Tid, x: Tun, tn: Tunnel, pc: Pc)
    requires t in s.threads && x in s.tunnels
    requires forall tok ::
      One(tok in Tokens(pc)) - One(tok in Tokens(At(s, t))) == TunnelTrade(s.tunnels[x], tn, x, tok)
    ensures Moves(s, Goto(s.(tunnels := s.tunnels[x := tn]), t, pc), t, s.threads[t].(pc := pc), x)
  {
    hide Tokens;
    var s' := Goto(s.(tunnels := s.tunnels[x := tn]), t, pc);
    forall tok
      ensures Supply(s', tok) - Supply(s, tok) ==
          One(tok in Tokens(pc)) - One(tok in Before(s, t)) + TunnelMove(s, s', x, tok)
    {
      TradeBalances(s, s', t, x, tok);
    }
  }

  lemma TradeBalances(s: Surface, s': Surface, t: Tid, x: Tun, tok: Token)
    requires x in s.tunnels && x in s'.tunnels && s'.tunnels == s.tunnels[x := s'.tunnels[x]] && s'.pool == s.pool
    ensures Supply(s', tok) - Supply(s, tok) ==
        TunnelTrade(s.tunnels[x], s'.tunnels[x], x, tok) + TunnelMove(s, s', x, tok)
  {
    match tok
    case RefTok(_) =>
    case OwnTok(_) =>
    case _ =>
  }

  lemma PhaseOk(s: Surface, e: Event, tn: Tunnel)
    requires TunnelOk(s, tn) && !tn.closed && PhaseAfter(e, tn, s.pool.draining).Some?
    ensures var tn' := tn.(phase := PhaseAfter(e, tn, s.pool.draining).value);
      TunnelOk(s, tn') && TunnelGrows(tn, tn', s.pool.draining)
  {
  }

  lemma PhaseKeeps(s: Surface, e: Event, x: Tun, tn: Tunnel)
    requires Inv(s) && At(s, e.t) == Owner(x) && Owned(s, e.t) == Some(tn) && PhaseAfter(e, tn, s.pool.draining).Some?
    ensures Inv(SetPhase(s, x, PhaseAfter(e, tn, s.pool.draining).value))
  {
    hide ThreadsOk, PoolOk, NoLeak, Balanced, Moves, TunnelOk, PhaseAfter;
    var tn' := tn.(phase := PhaseAfter(e, tn, s.pool.draining).value);
    assert SetPhase(s, x, tn'.phase) == Goto(s.(tunnels := s.tunnels[x := tn']), e.t, Owner(x));
    Holds(s, e.t, OwnTok(x));
    PhaseOk(s, e, tn);
    TunnelMoves(s, e.t, x, tn', Owner(x));
    TunnelChangeKeeps(s, e.t, x, tn', Owner(x));
  }

  lemma CloseTunnelKeeps(s: Surface, t: Tid)
    requires Inv(s) && Owned(s, t).Some? && (Owned(s, t).value.captured ==> TornDown(Owned(s, t).value))
    ensures Inv(CloseTunnelStep(s, t))
  {
    hide ThreadsOk, TunnelsOk, PoolOk, NoLeak, Balanced, Moves, TunnelOk, PcOk;
    var x, tn := At(s, t).x, Owned(s, t).value;
    Holds(s, t, OwnTok(x));
    TunnelIsOk(s, x);
    ClosedOk(s, tn);
    PcReleasing(s, s.threads[t], tn.up);
    TunnelMoves(s, t, x, tn.(closed := true), Releasing(tn.up));
    TunnelChangeKeeps(s, t, x, tn.(closed := true), Releasing(tn.up));
  }

  lemma ClosedOk(s: Surface, tn: Tunnel)
    requires TunnelOk(s, tn) && (tn.captured ==> TornDown(tn))
    ensures TunnelOk(s, tn.(closed := true)) && Installed(s, tn.up)
  {
  }

  lemma HealSwapKeeps(s: Surface, t: Tid)
    requires Inv(s) && At(s, t).Got? && At(s, t).c.goal.ForHeal? && At(s, t).c.goal.x in s.tunnels
    requires PcOk(s, s.threads[t], At(s, t))
    ensures Inv(HealSwapStep(s, t))
  {
    hide ThreadsOk, TunnelsOk, PoolOk, NoLeak, Balanced, Moves, TunnelOk;
    var Got(c, u) := At(s, t);
    var ForHeal(x, dead) := c.goal;
    var (won, tn') := Swap(s.tunnels[x], dead, u);
    TunnelIsOk(s, x);
    SwapOk(s, s.tunnels[x], dead, u);
    TunnelMoves(s, t, x, tn', Releasing(if won then dead else u));
    TunnelChangeKeeps(s, t, x, tn', Releasing(if won then dead else u));
  }

  lemma SwapOk(s: Surface, tn: Tunnel, dead: Uid, u: Uid)
    requires TunnelOk(s, tn) && Installed(s, u) && On(s, u, tn.key) && dead in s.pool.ups && s.pool.ups[dead].closed
    requires tn.up == dead ==> u !in tn.history
    ensures TunnelOk(s, Swap(tn, dead, u).1) && TunnelGrows(tn, Swap(tn, dead, u).1, s.pool.draining)
    ensures Swap(tn, dead, u).0 ==> Installed(s, dead)
  {
  }

  lemma HealFailedKeeps(s: Surface, t: Tid)
    requires Inv(s) && At(s, t).Failed? && At(s, t).c.goal.ForHeal? && At(s, t).c.goal.x in s.tunnels
    ensures var x := At(s, t).c.goal.x;
      Inv(Goto(s.(tunnels := s.tunnels[x := MarkHealFailed(s.tunnels[x]).1]), t, Idle))
  {
    hide ThreadsOk, TunnelsOk, PoolOk, NoLeak, Balanced, Moves, PcOk;
    var x := At(s, t).c.goal.x;
    TunnelIsOk(s, x);
    PcIdle(s, s.threads[t]);
    TunnelMoves(s, t, x, MarkHealFailed(s.tunnels[x]).1, Idle);
    TunnelChangeKeeps(s, t, x, MarkHealFailed(s.tunnels[x]).1, Idle);
  }

  // ---- the shutdown drain ----------------------------------------------------------------------

  lemma DoBeginDrainKeeps(s: Surface, t: Tid)
    requires Inv(s) && At(s, t).Idle?
    ensures Inv(Begin(s.(pool := BeginDrain(s.pool)), t, DrainBegun))
  {
    hide PcOk, TunnelOk, ThreadsOk, TunnelsOk, PoolOk, Balanced, Moves, NoLeak, PoolGrows, Supply;
    var s' := Begin(s.(pool := BeginDrain(s.pool)), t, DrainBegun);
    BeginDrainKeeps(s.pool);
    BegunOk(s', s'.threads[t]);
    NoMoves(s, s', t, s'.threads[t]);
    LeakMoves(s, s', t, s'.threads[t]);
    PoolMoveKeeps(s, s', t, s'.threads[t]);
  }

  lemma BegunOk(s: Surface, th: Thread)
    requires s.pool.draining
    ensures PcOk(s, th, DrainBegun)
  {
  }

  lemma NoMoves(s: Surface, s': Surface, t: Tid, th: Thread)
    requires s'.threads == s.threads[t := th] && s'.tunnels == s.tunnels && s'.pool.ups == s.pool.ups
    requires Before(s, t) == Tokens(th.pc)
    ensures Moves(s, s', t, th, 0)
  {
  }

  lemma SnapshotKeeps(s: Surface, t: Tid)
    requires Inv(s) && At(s, t).DrainBegun? && PcOk(s, s.threads[t], At(s, t))
    ensures Inv(Goto(s, t, Snapped(set x | x in s.tunnels && InRegistry(s.tunnels[x]))))
  {
    hide TunnelOk, ThreadsOk, TunnelsOk, NoLeak, Balanced, PoolOk;
    LocalKeeps(s, t, s.threads[t].(pc := Snapped(set x | x in s.tunnels && InRegistry(s.tunnels[x]))));
  }

  lemma DrainPoolKeeps(s: Surface, t: Tid)
    requires Inv(s) && At(s, t).Snapped? && PcOk(s, s.threads[t], At(s, t))
    ensures Inv(DrainPoolStep(s, t))
  {
    hide TunnelOk, ThreadsOk, TunnelsOk, NoLeak, Balanced, Moves, PoolOk, Supply, Tokens;
    var s' := DrainPoolStep(s, t);
    DrainAllKeeps(s.pool);
    DrainMoves(s, t);
    LeakMoves(s, s', t, s'.threads[t]);
    PoolMoveKeeps(s, s', t, s'.threads[t]);
  }

  lemma DrainMoves(s: Surface, t: Tid)
    requires Inv(s) && At(s, t).Snapped?
    ensures Moves(s, DrainPoolStep(s, t), t, DrainPoolStep(s, t).threads[t], 0)
  {
    hide TunnelOk, ThreadsOk, TunnelsOk, NoLeak, Balanced, DialsApart, Moves;
    var s' := DrainPoolStep(s, t);
    forall u | u in s.pool.ups
      ensures Supply(s', CloseTok(u)) - Supply(s, CloseTok(u)) == One(u in DrainAll(s.pool).0)
    {
      UpstreamIsOk(s, u);
    }
    DrainMovesFrom(s, s', t, DrainAll(s.pool).0);
  }

  lemma DrainMovesFrom(s: Surface, s': Surface, t: Tid, conns: set<Uid>)
    requires At(s, t).Snapped? && s' == DrainPoolStep(s, t) && conns == DrainAll(s.pool).0
    requires forall u :: u in s.pool.ups ==> Supply(s', CloseTok(u)) - Supply(s, CloseTok(u)) == One(u in conns)
    ensures Moves(s, s', t, s'.threads[t], 0)
  {
    hide DrainAll, Supply;
    forall tok
      ensures Supply(s', tok) - Supply(s, tok) ==
          One(tok in Tokens(s'.threads[t].pc)) - One(tok in Before(s, t)) + TunnelMove(s, s', 0, tok)
    {
      DrainSupply(s, s', t, tok);
    }
  }

  /** Draining the pool changes who owes a close, and no other duty. */
  lemma DrainSupply(s: Surface, s': Surface, t: Tid, tok: Token)
    requires At(s, t).Snapped? && s' == DrainPoolStep(s, t)
    ensures !tok.CloseTok? || tok.u !in s.pool.ups ==> Supply(s', tok) == Supply(s, tok)
    ensures s'.threads[t].pc == DrainClosing(At(s, t).snap, DrainAll(s.pool).0) && DrainAll(s.pool).0 <= s.pool.ups.Keys
    ensures s'.tunnels == s.tunnels
  {
    assert s'.pool.ups.Keys == s.pool.ups.Keys;
  }

  lemma DrainCloseKeeps(s: Surface, t: Tid, u: Uid)
    requires Ready(s, t) && At(s, t).DrainClosing? && u in At(s, t).conns
    requires u in s.pool.ups && s.pool.ups[u].conn == Open
    ensures Inv(Goto(s.(pool := CloseConn(s.pool, u)), t, DrainClosing(At(s, t).snap, At(s, t).conns - {u})))
  {
    hide TunnelOk, ThreadsOk, TunnelsOk, NoLeak, Balanced, Moves, PoolOk, PoolGrows, Supply, Tokens, DrainedOk;
    var DrainClosing(snap, conns) := At(s, t);
    var s' := Goto(s.(pool := CloseConn(s.pool, u)), t, DrainClosing(snap, conns - {u}));
    assert s.pool.ups[u].closed;
    CloseConnKeeps(s.pool, u);
    DrainStays(s, s', snap, snap, 0);
    DrainCloseMoves(s, s', t, u, snap, conns);
    LeakMoves(s, s', t, s'.threads[t]);
    PoolMoveKeeps(s, s', t, s'.threads[t]);
  }

  lemma DrainCloseMoves(s: Surface, s': Surface, t: Tid, u: Uid, snap: set<Tun>, conns: set<Uid>)
    requires At(s, t) == DrainClosing(snap, conns) && u in conns && u in s.pool.ups
    requires s.pool.ups[u].conn == Open && s.pool.ups[u].closed
    requires s' == Goto(s.(pool := CloseConn(s.pool, u)), t, DrainClosing(snap, conns - {u}))
    ensures Moves(s, s', t, s'.threads[t], 0)
  {
    hide Tokens, Supply;
    DrainTokens(snap, conns);
    DrainTokens(snap, conns - {u});
    forall tok
      ensures Supply(s', tok) - Supply(s, tok) ==
          One(tok in Tokens(s'.threads[t].pc)) - One(tok in Before(s, t)) + TunnelMove(s, s', 0, tok)
    {
      CloseSupply(s, s', u, tok);
    }
  }

  lemma DrainTokens(snap: set<Tun>, conns: set<Uid>)
    ensures forall tok :: tok in Tokens(DrainClosing(snap, conns)) <==> tok.CloseTok? && tok.u in conns
  {
  }

  /** Closing a retired connection settles that close and no other duty. */
  lemma CloseSupply(s: Surface, s': Surface, u: Uid, tok: Token)
    requires u in s.pool.ups && s.pool.ups[u].conn == Open && s.pool.ups[u].closed
    requires s'.pool == CloseConn(s.pool, u) && s'.tunnels == s.tunnels
    ensures Supply(s', tok) == Supply(s, tok) - One(tok == CloseTok(u))
  {
  }

  lemma AwaitTunnelsKeeps(s: Surface, t: Tid)
    requires Inv(s) && At(s, t).DrainClosing? && At(s, t).conns == {} && PcOk(s, s.threads[t], At(s, t))
    ensures Inv(Goto(s, t, Awaiting(At(s, t).snap, At(s, t).snap, 0)))
  {
    hide TunnelOk, ThreadsOk, TunnelsOk, NoLeak, Balanced, PoolOk;
    LocalKeeps(s, t, s.threads[t].(pc := Awaiting(At(s, t).snap, At(s, t).snap, 0)));
  }

  lemma AwaitKeeps(s: Surface, t: Tid, x: Tun, expired: bool)
    requires Inv(s) && At(s, t).Awaiting? && x in At(s, t).todo && x in s.tunnels && PcOk(s, s.threads[t], At(s, t))
    requires expired || TornDown(s.tunnels[x])
    ensures var Awaiting(snap, todo, left) := At(s, t);
      Inv(Goto(s, t, Awaiting(snap, todo - {x}, if expired then left + 1 else left)))
  {
    hide TunnelOk, ThreadsOk, TunnelsOk, NoLeak, Balanced, PoolOk;
    var Awaiting(snap, todo, left) := At(s, t);
    LocalKeeps(s, t, s.threads[t].(pc := Awaiting(snap, todo - {x}, if expired then left + 1 else left)));
  }

  lemma ReturnKeeps(s: Surface, t: Tid)
    requires Inv(s) && At(s, t).Awaiting? && At(s, t).todo == {} && PcOk(s, s.threads[t], At(s, t))
    ensures Inv(Goto(s, t, Drained(At(s, t).snap, At(s, t).left)))
  {
    hide TunnelOk, ThreadsOk, TunnelsOk, NoLeak, Balanced, PoolOk;
    LocalKeeps(s, t, s.threads[t].(pc := Drained(At(s, t).snap, At(s, t).left)));
  }

  // ---- every step, every run -----------------------------------------------------------------------

  /** What goroutine t holds entitles it to its next step. */
  lemma Entitled(s: Surface, t: Tid)
    requires Inv(s) && t in s.threads
    ensures PcOk(s, s.threads[t], At(s, t))
    ensures At(s, t).Dialing? ==> At(s, t).u in s.pool.ups && s.pool.ups[At(s, t).u].dialing
    ensures At(s, t).Signalling? ==>
      At(s, t).u in s.pool.ups && !s.pool.ups[At(s, t).u].signalled && !s.pool.ups[At(s, t).u].dialing
    ensures At(s, t).Closing? ==>
      At(s, t).u in s.pool.ups && s.pool.ups[At(s, t).u].conn == Open && s.pool.ups[At(s, t).u].closed
    ensures At(s, t).Releasing? ==> Installed(s, At(s, t).u) && s.pool.ups[At(s, t).u].refs > 0
    ensures At(s, t).Borrowing? || At(s, t).Callback? ==> Installed(s, At(s, t).u)
    ensures At(s, t).Parked? && At(s, t).u in s.pool.ups && s.pool.ups[At(s, t).u].signalled ==>
        !s.pool.ups[At(s, t).u].dialing
    ensures At(s, t).DrainClosing? ==> forall u :: u in At(s, t).conns ==> s.pool.ups[u].conn == Open
  {
    hide TunnelsOk, PoolOk, NoLeak, Balanced, LoopOk, WhyOk, SnapOk;
    var pc := At(s, t);
    assert PcOk(s, s.threads[t], pc);
    IsOwed(s, t);
    if pc.Parked? && pc.u in s.pool.ups { UpstreamIsOk(s, pc.u); }
  }

  /** What goroutine t holds or owes is outstanding in the pool. */
  lemma IsOwed(s: Surface, t: Tid)
    requires Balanced(s) && t in s.threads
    ensures At(s, t).Dialing? ==> Supply(s, DialTok(At(s, t).u)) >= 1
    ensures At(s, t).Signalling? ==> Supply(s, SignalTok(At(s, t).u)) >= 1
    ensures At(s, t).Closing? ==> Supply(s, CloseTok(At(s, t).u)) >= 1
    ensures At(s, t).Releasing? ==> Supply(s, RefTok(At(s, t).u)) >= 1
    ensures At(s, t).DrainClosing? ==> forall u :: u in At(s, t).conns ==> Supply(s, CloseTok(u)) >= 1
  {
    hide Supply, Balanced;
    var pc := At(s, t);
    if pc.Dialing? { Holds(s, t, DialTok(pc.u)); }
    if pc.Signalling? { Holds(s, t, SignalTok(pc.u)); }
    if pc.Closing? { Holds(s, t, CloseTok(pc.u)); }
    if pc.Releasing? { Holds(s, t, RefTok(pc.u)); }
    if pc.DrainClosing? {
      forall u | u in pc.conns ensures Supply(s, CloseTok(u)) >= 1 { Holds(s, t, CloseTok(u)); }
    }
  }

  // ---- what a step leaves alone -----------------------------------------------------------------

  /** What a step does to the pool alone. */
  ghost function NextPool(s: Surface, e: Event): Pool {
    var pc, p := At(s, e.t), s.pool;
    match e
    case DoPass(_, spare) => if pc.Passing? && spare !in p.ups then Pass(p, pc.c.key, spare).1 else p
    case DialDone(t, ok) =>
      if !pc.Dialing? || pc.u !in p.ups then p
      else if ok then DialLands(p, pc.u).1 else DialFails(p, pc.u, s.threads[t].ctx == Canceled)
    case DoSignal(_) => if pc.Signalling? && pc.u in p.ups then Signal(p, pc.u) else p
    case DoClose(_) => if pc.Closing? && pc.u in p.ups then CloseConn(p, pc.u) else p
    case Borrow(_) => if pc.Borrowing? && pc.u in p.ups then TryAcquire(p, pc.u).1 else p
    case DoRelease(_) => if pc.Releasing? && pc.u in p.ups then Release(p, pc.u) else p
    case DoFire(_, u) => if pc.Idle? && u in p.ups && p.ups[u].timer == Armed then Fire(p, u) else p
    case IdleCallback(_) => if pc.Callback? && pc.u in p.ups then IdleClose(p, pc.u).1 else p
    case DoEvict(_) => if pc.Evicting? && pc.up in p.ups && pc.x in s.tunnels then Evict(p, pc.up).1 else p
    case DoBeginDrain(_) => if pc.Idle? then BeginDrain(p) else p
    case DrainPool(_) => if pc.Snapped? then DrainAll(p).1 else p
    case DrainClose(_, u) => if pc.DrainClosing? && u in pc.conns && u in p.ups then CloseConn(p, u) else p
    case _ => p
  }

  lemma PoolAfter(s: Surface, e: Event)
    ensures Step(s, e).pool == NextPool(s, e)
  {
    hide Step, NextPool;
    if MovesPool(e) { PoolMoves(s, e); } else { PoolRests(s, e); }
  }

  predicate MovesPool(e: Event) {
    || e.DoPass? || e.DialDone? || e.DoSignal? || e.DoClose? || e.Borrow? || e.DoRelease? || e.DoFire?
    || e.IdleCallback? || e.DoEvict? || e.DoBeginDrain? || e.DrainPool? || e.DrainClose?
  }

  lemma PoolRests(s: Surface, e: Event)
    requires !MovesPool(e)
    ensures Step(s, e).pool == s.pool == NextPool(s, e)
  {
    hide PhaseAfter, Swap, MarkHealFailed, MarkClosed, InRegistry, TornDown, NewTunnel;
  }

  lemma PoolMoves(s: Surface, e: Event)
    requires MovesPool(e)
    ensures Step(s, e).pool == NextPool(s, e)
  {
    hide Pass, DialFails, DialLands, Signal, CloseConn, TryAcquire;
    hide Release, Fire, IdleClose, Evict, BeginDrain, DrainAll;
    hide PhaseAfter, Swap, MarkHealFailed, MarkClosed, InRegistry, TornDown, NewTunnel;
  }

  predicate MovesTunnels(e: Event) {
    || e.OpenTunnel? || e.Register? || e.CheckDraining? || e.Unwind? || e.Complete? || e.Deregister?
    || e.CloseTunnel? || e.HealSwap? || e.HealFailed?
  }

  lemma TunnelsRest(s: Surface, e: Event)
    requires !MovesTunnels(e)
    ensures Step(s, e).tunnels == s.tunnels
  {
    hide Pass, DialFails, DialLands, Signal, CloseConn, TryAcquire;
    hide Release, Fire, IdleClose, Evict, BeginDrain, DrainAll;
    hide PhaseAfter, InRegistry, TornDown;
  }

  /** Where a step takes the goroutine that makes it. */
  ghost function NextPc(s: Surface, e: Event): Pc {
    var pc, p := At(s, e.t), s.pool;
    match e
    case Request(_, key, client) =>
      if pc.Idle? then Passing(Call(key, if client then ForClient else ForFresh)) else pc
    case DoPass(_, spare) => if pc.Passing? && spare !in p.ups then PassPc(p, pc.c, spare) else pc
    case Wake(_) => if pc.Parked? && pc.u in p.ups && p.ups[pc.u].signalled then Woken(pc.c, pc.u) else pc
    case Abandon(t) => if pc.Parked? && s.threads[t].ctx != Live then Failed(pc.c, CtxDone) else pc
    case Observe(t) => if pc.Woken? && pc.u in p.ups then ObservePc(p.ups[pc.u], s.threads[t].ctx, pc.c, pc.u) else pc
    case DialDone(_, ok) => if pc.Dialing? && pc.u in p.ups then DialPc(p, pc.c, pc.u, ok) else pc
    case DoSignal(_) => if pc.Signalling? && pc.u in p.ups then pc.next else pc
    case DoClose(_) => if pc.Closing? && pc.u in p.ups then pc.next else pc
    case Finish(_) => if pc.Forwarding? || (pc.Failed? && !pc.c.goal.ForHeal?) then Idle else pc
    case OpenTunnel(_, x, _) => if pc.Got? && !pc.c.goal.ForHeal? && x !in s.tunnels then Owner(x) else pc
    case DropFresh(_) => if pc.Got? && pc.c.goal.ForFresh? then Releasing(pc.u) else pc
    case CloseTunnel(t) =>
      if Owned(s, t).Some? && (Owned(s, t).value.captured ==> TornDown(Owned(s, t).value))
      then if Owned(s, t).value.closed then Idle else Releasing(Owned(s, t).value.up)
      else pc
    case ReadForBorrow(_, x) => if pc.Idle? && x in s.tunnels then Borrowing(s.tunnels[x].up) else pc
    case Borrow(_) =>
      if pc.Borrowing? && pc.u in p.ups then if p.ups[pc.u].closed then Idle else Releasing(pc.u) else pc
    case DoRelease(_) => if pc.Releasing? && pc.u in p.ups then Idle else pc
    case DoFire(_, u) =>
      if pc.Idle? && u in p.ups && p.ups[u].timer == Armed then Callback(u, p.ups[u].grace) else pc
    case IdleCallback(_) =>
      if pc.Callback? && pc.u in p.ups
      then if p.ups[pc.u].closed || p.ups[pc.u].refs > 0 then Idle else Closing(pc.u, Idle)
      else pc
    case Forward(_, x) => if pc.Idle? && x in s.tunnels then Forwarding(x, s.tunnels[x].up) else pc
    case ForwardFailed(_) =>
      if pc.Forwarding? && pc.x in s.tunnels
      then if s.tunnels[pc.x].closed || s.tunnels[pc.x].up != pc.up then Idle else Evicting(pc.x, pc.up)
      else pc
    case DoEvict(_) =>
      if pc.Evicting? && pc.up in p.ups && pc.x in s.tunnels then EvictPc(p.ups[pc.up], s.tunnels[pc.x].key, pc) else pc
    case HealSwap(_) =>
      if pc.Got? && pc.c.goal.ForHeal? && pc.c.goal.x in s.tunnels
      then SwapPc(s.tunnels[pc.c.goal.x], pc.c.goal.dead, pc.u) else pc
    case HealFailed(_) => if pc.Failed? && pc.c.goal.ForHeal? && pc.c.goal.x in s.tunnels then Idle else pc
    case DoBeginDrain(_) => if pc.Idle? then DrainBegun else pc
    case Snapshot(_) => if pc.DrainBegun? then Snapped(set x | x in s.tunnels && InRegistry(s.tunnels[x])) else pc
    case DrainPool(_) => if pc.Snapped? then DrainClosing(pc.snap, DrainAll(p).0) else pc
    case DrainClose(_, u) =>
      if pc.DrainClosing? && u in pc.conns && u in p.ups then DrainClosing(pc.snap, pc.conns - {u}) else pc
    case AwaitTunnels(_) => if pc.DrainClosing? && pc.conns == {} then Awaiting(pc.snap, pc.snap, 0) else pc
    case Await(_, x, expired) =>
      if pc.Awaiting? && x in pc.todo && x in s.tunnels && (expired || TornDown(s.tunnels[x]))
      then Awaiting(pc.snap, pc.todo - {x}, pc.left + One(expired)) else pc
    case Return(_) => if pc.Awaiting? && pc.todo == {} then Drained(pc.snap, pc.left) else pc
    case _ => pc
  }

  ghost function PassPc(p: Pool, c: Call, spare: Uid): Pc {
    match Pass(p, c.key, spare).0
    case Refused => Failed(c, ShuttingDown)
    case Acquired(u) => Got(c, u)
    case Wait(u) => Parked(c, u)
    case Dial(u) => Dialing(c, u)
  }

  ghost function ObservePc(x: Upstream, ctx: Ctx, c: Call, u: Uid): Pc {
    if x.dialErr && !(x.dialCanceled && ctx == Live) then Failed(c, DialFailed(u)) else Passing(c)
  }

  ghost function DialPc(p: Pool, c: Call, u: Uid, ok: bool): Pc
    requires u in p.ups
  {
    Signalling(u,
      if !ok then Failed(c, DialFailed(u))
      else if p.ups[u].closed then Closing(u, Failed(c, ShuttingDown)) else Got(c, u))
  }

  ghost function EvictPc(x: Upstream, key: PoolKey, pc: Pc): Pc
    requires pc.Evicting?
  {
    var again := Passing(Call(key, ForHeal(pc.x, pc.up)));
    if x.closed then again else Closing(pc.up, again)
  }

  ghost function SwapPc(tn: Tunnel, dead: Uid, u: Uid): Pc {
    Releasing(if tn.closed || tn.up != dead then u else dead)
  }

  /** A step moves its own goroutine as told, and no other. */
  lemma PcAfter(s: Surface, e: Event, t: Tid)
    ensures At(Step(s, e), t) == if t == e.t then NextPc(s, e) else At(s, t)
  {
    hide Step, NextPc;
    if IsCall(e) { CallPc(s, e, t); } else if IsDrain(e) { DrainPc(s, e, t); }
    else if MovesTunnels(e) { TunnelPc(s, e, t); } else { HolderPc(s, e, t); }
  }

  predicate IsCall(e: Event) {
    || e.Request? || e.EndCtx? || e.DoPass? || e.Wake? || e.Abandon? || e.Observe? || e.DialDone? || e.DoSignal?
    || e.DoClose?
  }

  predicate IsDrain(e: Event) {
    e.DoBeginDrain? || e.Snapshot? || e.DrainPool? || e.DrainClose? || e.AwaitTunnels? || e.Await? || e.Return?
  }

  lemma CallPc(s: Surface, e: Event, t: Tid)
    requires IsCall(e)
    ensures At(Step(s, e), t) == if t == e.t then NextPc(s, e) else At(s, t)
  {
    hide Step, NextPc;
    if e.Request? || e.EndCtx? || e.DoSignal? || e.DoClose? { DutyPc(s, e, t); } else { LoopPc(s, e, t); }
  }

  lemma DutyPc(s: Surface, e: Event, t: Tid)
    requires e.Request? || e.EndCtx? || e.DoSignal? || e.DoClose?
    ensures At(Step(s, e), t) == if t == e.t then NextPc(s, e) else At(s, t)
  {
    hide Signal, CloseConn;
  }

  lemma LoopPc(s: Surface, e: Event, t: Tid)
    requires e.DoPass? || e.Wake? || e.Abandon? || e.Observe? || e.DialDone?
    ensures At(Step(s, e), t) == if t == e.t then NextPc(s, e) else At(s, t)
  {
    hide Pass, DialFails;
  }

  lemma DrainPc(s: Surface, e: Event, t: Tid)
    requires IsDrain(e)
    ensures At(Step(s, e), t) == if t == e.t then NextPc(s, e) else At(s, t)
  {
    hide Step, NextPc;
    if e.DoBeginDrain? || e.Snapshot? || e.DrainPool? { EmptyingPc(s, e, t); } else { WaitingPc(s, e, t); }
  }

  lemma EmptyingPc(s: Surface, e: Event, t: Tid)
    requires e.DoBeginDrain? || e.Snapshot? || e.DrainPool?
    ensures At(Step(s, e), t) == if t == e.t then NextPc(s, e) else At(s, t)
  {
    hide BeginDrain, DrainAll, InRegistry, TornDown;
  }

  lemma WaitingPc(s: Surface, e: Event, t: Tid)
    requires e.DrainClose? || e.AwaitTunnels? || e.Await? || e.Return?
    ensures At(Step(s, e), t) == if t == e.t then NextPc(s, e) else At(s, t)
  {
    hide Step, NextPc;
    if e.Await? { AwaitPc(s, e, t); } else { ClosingPc(s, e, t); }
  }

  lemma AwaitPc(s: Surface, e: Event, t: Tid)
    requires e.Await?
    ensures At(Step(s, e), t) == if t == e.t then NextPc(s, e) else At(s, t)
  {
    hide TornDown;
  }

  lemma ClosingPc(s: Surface, e: Event, t: Tid)
    requires e.DrainClose? || e.AwaitTunnels? || e.Return?
    ensures At(Step(s, e), t) == if t == e.t then NextPc(s, e) else At(s, t)
  {
    hide CloseConn;
  }

  lemma TunnelPc(s: Surface, e: Event, t: Tid)
    requires MovesTunnels(e)
    ensures At(Step(s, e), t) == if t == e.t then NextPc(s, e) else At(s, t)
  {
    hide Step, NextPc;
    if e.OpenTunnel? || e.CloseTunnel? { EndsPc(s, e, t); }
    else if e.HealSwap? || e.HealFailed? { HealPc(s, e, t); } else { StagePc(s, e, t); }
  }

  lemma EndsPc(s: Surface, e: Event, t: Tid)
    requires e.OpenTunnel? || e.CloseTunnel?
    ensures At(Step(s, e), t) == if t == e.t then NextPc(s, e) else At(s, t)
  {
    hide TornDown, NewTunnel;
  }

  lemma HealPc(s: Surface, e: Event, t: Tid)
    requires e.HealSwap? || e.HealFailed?
    ensures At(Step(s, e), t) == if t == e.t then NextPc(s, e) else At(s, t)
  {
    hide MarkHealFailed;
  }

  lemma StagePc(s: Surface, e: Event, t: Tid)
    requires e.Register? || e.CheckDraining? || e.Unwind? || e.Complete? || e.Deregister?
    ensures At(Step(s, e), t) == if t == e.t then NextPc(s, e) else At(s, t)
  {
    hide PhaseAfter;
  }

  lemma HolderPc(s: Surface, e: Event, t: Tid)
    requires !IsCall(e) && !IsDrain(e) && !MovesTunnels(e)
    ensures At(Step(s, e), t) == if t == e.t then NextPc(s, e) else At(s, t)
  {
    hide Release, Fire, Unmap;
  }

  // ---- nothing runs backwards ---------------------------------------------------------------

  lemma PoolStands(p: Pool)
    ensures PoolGrows(p, p)
  {
  }

  /** Every event moves the pool one way only. */
  lemma PoolRuns(s: Surface, e: Event)
    requires Inv(s)
    ensures PoolGrows(s.pool, Step(s, e).pool)
  {
    hide Inv, Step, PoolGrows, NextPool;
    PoolAfter(s, e);
    PoolStands(s.pool);
    if NextPool(s, e) != s.pool { PoolTurns(s, e); }
  }

  lemma PoolTurns(s: Surface, e: Event)
    requires Inv(s) && NextPool(s, e) != s.pool
    ensures PoolGrows(s.pool, NextPool(s, e))
  {
    hide Step, TunnelOk, ThreadsOk, TunnelsOk, PoolOk, Balanced, NoLeak, PoolGrows, LoopOk, DrainedOk, PcOk;
    var t, pc := e.t, At(s, e.t);
    if t in s.threads { Entitled(s, t); }
    match e
    case DoPass(_, spare) => PassKeeps(s.pool, pc.c.key, spare);
    case DialDone(_, ok) =>
      if ok { DialLandsKeeps(s.pool, pc.u); } else { DialFailsKeeps(s.pool, pc.u, s.threads[t].ctx == Canceled); }
    case DoSignal(_) => SignalKeeps(s.pool, pc.u);
    case DoClose(_) => CloseConnKeeps(s.pool, pc.u);
    case Borrow(_) => TryAcquireKeeps(s.pool, pc.u);
    case DoRelease(_) => ReleaseKeeps(s.pool, pc.u);
    case DoFire(_, u) => FireKeeps(s.pool, u);
    case IdleCallback(_) => IdleCloseKeeps(s.pool, pc.u);
    case DoEvict(_) => EvictingIs(s, t); EvictKeeps(s.pool, pc.up);
    case DoBeginDrain(_) => BeginDrainKeeps(s.pool);
    case DrainPool(_) => SnappedIs(s, t); DrainAllKeeps(s.pool);
    case DrainClose(_, u) => DrainClosingIs(s, t); CloseConnKeeps(s.pool, u);
  }

  lemma EvictingIs(s: Surface, t: Tid)
    requires t in s.threads && At(s, t).Evicting? && PcOk(s, s.threads[t], At(s, t))
    ensures Installed(s, At(s, t).up)
  {
  }

  lemma SnappedIs(s: Surface, t: Tid)
    requires t in s.threads && At(s, t).Snapped? && PcOk(s, s.threads[t], At(s, t))
    ensures s.pool.draining
  {
  }

  lemma DrainClosingIs(s: Surface, t: Tid)
    requires t in s.threads && At(s, t).DrainClosing? && PcOk(s, s.threads[t], At(s, t))
    ensures forall u :: u in At(s, t).conns ==> u in s.pool.ups && s.pool.ups[u].closed
  {
  }

  /** A heal about to swap a tunnel still bound to the dead upstream brings it one it never had. */
  lemma SwapIsNew(s: Surface, t: Tid)
    requires Inv(s) && At(s, t).Got? && At(s, t).c.goal.ForHeal?
    ensures var Got(c, u) := At(s, t);
      c.goal.x in s.tunnels && (s.tunnels[c.goal.x].up == c.goal.dead ==> u !in s.tunnels[c.goal.x].history)
  {
    hide TunnelsOk, PoolOk, Balanced, NoLeak;
    assert PcOk(s, s.threads[t], At(s, t));
  }

  lemma TunnelsTurn(s: Surface, e: Event, x: Tun)
    requires x in s.tunnels
    requires var pc := At(s, e.t);
      pc.Got? && pc.c.goal.ForHeal? && pc.c.goal.x == x && s.tunnels[x].up == pc.c.goal.dead
      ==> pc.u !in s.tunnels[x].history
    ensures x in Step(s, e).tunnels && TunnelGrows(s.tunnels[x], Step(s, e).tunnels[x], s.pool.draining)
  {
    hide Pass, DialFails, DialLands, TryAcquire, Release, IdleClose, Evict, DrainAll, PhaseAfter, TunnelGrows;
    TunnelStands(s.tunnels[x], s.pool.draining);
    match e
    case HealSwap(t) => if At(s, t).Got? && At(s, t).c.goal.ForHeal? && At(s, t).c.goal.x == x { SwapGrows(s, t); }
    case CloseTunnel(t) => ClosingGrows(s.tunnels[x], s.pool.draining);
    case HealFailed(t) => FailureGrows(s.tunnels[x], s.pool.draining);
    case _ => PhaseGrows(e, s.tunnels[x], s.pool.draining);
  }

  lemma TunnelStands(tn: Tunnel, draining: bool)
    ensures TunnelGrows(tn, tn, draining)
  {
  }

  lemma SwapGrows(s: Surface, t: Tid)
    requires At(s, t).Got? && At(s, t).c.goal.ForHeal? && At(s, t).c.goal.x in s.tunnels
    requires s.tunnels[At(s, t).c.goal.x].up == At(s, t).c.goal.dead ==>
        At(s, t).u !in s.tunnels[At(s, t).c.goal.x].history
    ensures var x := At(s, t).c.goal.x; TunnelGrows(s.tunnels[x], HealSwapStep(s, t).tunnels[x], s.pool.draining)
  {
  }

  lemma ClosingGrows(tn: Tunnel, draining: bool)
    ensures TunnelGrows(tn, MarkClosed(tn).1, draining)
  {
  }

  lemma FailureGrows(tn: Tunnel, draining: bool)
    ensures TunnelGrows(tn, MarkHealFailed(tn).1, draining)
  {
  }

  lemma PhaseGrows(e: Event, tn: Tunnel, draining: bool)
    ensures PhaseAfter(e, tn, draining).Some? ==>
      TunnelGrows(tn, tn.(phase := PhaseAfter(e, tn, draining).value), draining)
  {
  }

  lemma TunnelsOpen(s: Surface, e: Event, x: Tun)
    requires x in Step(s, e).tunnels && x !in s.tunnels
    ensures Step(s, e).tunnels[x].phase == Opened
  {
    hide Step;
    if MovesTunnels(e) { OpeningOpens(s, e, x); } else { TunnelsRest(s, e); }
  }

  lemma OpeningOpens(s: Surface, e: Event, x: Tun)
    requires MovesTunnels(e) && x in Step(s, e).tunnels && x !in s.tunnels
    ensures Step(s, e).tunnels[x].phase == Opened
  {
    hide PhaseAfter, Swap, MarkHealFailed, MarkClosed, InRegistry, TornDown;
  }
  /** Every event moves each tunnel one way only. */
  lemma TunnelsRun(s: Surface, e: Event, x: Tun)
    requires Inv(s)
    ensures x in s.tunnels ==>
      x in Step(s, e).tunnels && TunnelGrows(s.tunnels[x], Step(s, e).tunnels[x], s.pool.draining)
    ensures x in Step(s, e).tunnels && x !in s.tunnels ==> Step(s, e).tunnels[x].phase == Opened
  {
    hide Inv, Step, TunnelGrows;
    if At(s, e.t).Got? && At(s, e.t).c.goal.ForHeal? { SwapIsNew(s, e.t); }
    if x in s.tunnels { TunnelsTurn(s, e, x); }
    else if x in Step(s, e).tunnels { TunnelsOpen(s, e, x); }
  }

  lemma StepGrows(s: Surface, e: Event)
    requires Inv(s)
    ensures Grows(s, Step(s, e))
  {
    hide Inv, Step, PoolGrows, TunnelGrows;
    PoolRuns(s, e);
    forall x: Tun { TunnelsRun(s, e, x); }
  }

  /** Every event keeps the invariant and lets nothing run backwards. */
  lemma StepKeeps(s: Surface, e: Event)
    requires Inv(s)
    ensures Inv(Step(s, e)) && Grows(s, Step(s, e))
  {
    hide Inv, Grows, Step;
    StepStays(s, e);
    StepGrows(s, e);
  }

  lemma StepStays(s: Surface, e: Event)
    requires Inv(s)
    ensures Inv(Step(s, e))
  {
    hide Inv, Step;
    if IsCall(e) { CallStays(s, e); } else if IsDrain(e) { DrainingStays(s, e); }
    else if MovesTunnels(e) { OwnerStays(s, e); } else { HolderStays(s, e); }
  }

  lemma CallStays(s: Surface, e: Event)
    requires Inv(s) && IsCall(e)
    ensures Inv(Step(s, e))
  {
    hide Inv, TunnelOk, PcOk;
    var t := e.t;
    if t in s.threads { Entitled(s, t); }
    if Step(s, e) != s {
      match e
      case Request(_, key, client) => RequestKeeps(s, t, key, client);
      case EndCtx(_, canceled) => EndCtxKeeps(s, t, canceled);
      case DoPass(_, spare) => DoPassKeeps(s, t, spare);
      case Wake(_) => WakeKeeps(s, t);
      case Abandon(_) => AbandonKeeps(s, t);
      case Observe(_) => ObserveKeeps(s, t);
      case DialDone(_, ok) => DialDoneKeeps(s, t, ok);
      case DoSignal(_) => DoSignalKeeps(s, t);
      case DoClose(_) => DoCloseKeeps(s, t);
    }
  }

  lemma DrainingStays(s: Surface, e: Event)
    requires Inv(s) && IsDrain(e)
    ensures Inv(Step(s, e))
  {
    hide Inv, PcOk, TunnelOk, InRegistry, DrainAll;
    var t := e.t;
    if t in s.threads { Entitled(s, t); }
    if Step(s, e) != s {
      match e
      case DoBeginDrain(_) => DoBeginDrainKeeps(s, t);
      case Snapshot(_) => SnapshotKeeps(s, t);
      case DrainPool(_) => DrainPoolKeeps(s, t);
      case _ => WaitingStays(s, e);
    }
  }

  lemma WaitingStays(s: Surface, e: Event)
    requires Inv(s) && (e.DrainClose? || e.AwaitTunnels? || e.Await? || e.Return?)
    ensures Inv(Step(s, e))
  {
    hide Inv, PcOk, TunnelOk, TornDown, CloseConn;
    var t := e.t;
    if t in s.threads { Entitled(s, t); }
    if Step(s, e) != s {
      match e
      case DrainClose(_, u) => DrainCloseKeeps(s, t, u);
      case AwaitTunnels(_) => AwaitTunnelsKeeps(s, t);
      case Await(_, x, expired) => AwaitKeeps(s, t, x, expired);
      case Return(_) => ReturnKeeps(s, t);
    }
  }

  lemma OwnerStays(s: Surface, e: Event)
    requires Inv(s) && MovesTunnels(e)
    ensures Inv(Step(s, e))
  {
    hide Inv, TunnelOk, PcOk, Swap, MarkHealFailed, MarkClosed, NewTunnel, PhaseAfter, TornDown;
    var t := e.t;
    if t in s.threads { Entitled(s, t); }
    if Step(s, e) != s {
      match e
      case OpenTunnel(_, x, captured) => OpenTunnelKeeps(s, t, x, captured);
      case CloseTunnel(_) => CloseTunnelKeeps(s, t);
      case HealSwap(_) => HealSwapKeeps(s, t);
      case HealFailed(_) => HealFailedKeeps(s, t);
      case _ => StageStays(s, e);
    }
  }

  lemma StageStays(s: Surface, e: Event)
    requires Inv(s) && (e.Register? || e.CheckDraining? || e.Unwind? || e.Complete? || e.Deregister?)
    ensures Inv(Step(s, e))
  {
    hide Inv, PhaseAfter;
    if Step(s, e) != s { PhaseKeeps(s, e, At(s, e.t).x, Owned(s, e.t).value); }
  }

  lemma HolderStays(s: Surface, e: Event)
    requires Inv(s) && !IsCall(e) && !IsDrain(e) && !MovesTunnels(e)
    ensures Inv(Step(s, e))
  {
    hide Inv, TunnelOk, PcOk;
    var t := e.t;
    if t in s.threads { Entitled(s, t); }
    if Step(s, e) != s {
      match e
      case Finish(_) => FinishKeeps(s, t);
      case DropFresh(_) => DropFreshKeeps(s, t);
      case ReadForBorrow(_, x) => TunnelIsOk(s, x); ReadForBorrowKeeps(s, t, x);
      case Borrow(_) => BorrowKeeps(s, t);
      case DoRelease(_) => DoReleaseKeeps(s, t);
      case DoFire(_, u) => DoFireKeeps(s, t, u);
      case IdleCallback(_) => IdleCallbackKeeps(s, t);
      case Forward(_, x) => TunnelIsOk(s, x); ForwardKeeps(s, t, x);
      case ForwardFailed(_) => ForwardFailedKeeps(s, t);
      case DoEvict(_) => DoEvictKeeps(s, t);
    }
  }

  lemma StartOk()
    ensures Inv(Start)
  {
    forall tok ensures Held(Start, tok) == Supply(Start, tok) {
      assert Matching(Start.threads, (h: Thread) => tok in Tokens(h.pc)) == {};
      if tok.RefTok? {
        assert Matching(Start.tunnels, (tn: Tunnel) => !tn.closed && tn.up == tok.u) == {};
      }
    }
  }

  /** The invariant holds in every state any interleaving can reach. */
  lemma {:induction false} RunOk(events: seq<Event>)
    ensures Inv(Run(Start, events))
    decreases |events|
  {
    if events == [] {
      StartOk();
    } else {
      RunOk(events[..|events| - 1]);
      StepKeeps(Run(Start, events[..|events| - 1]), events[|events| - 1]);
    }
  }
}
