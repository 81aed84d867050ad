/**
 The reconnect loop (sidescale/main.go): dial, serve, and on a dropped transport try again with doubling waits
 until an outage has lasted longer than its window. Times are nanoseconds on a clock that never runs back.
 */
module Reconnect {
  import opened Common

  datatype Pacing = Pacing(initial: nat, max: nat, stable: nat, window: nat)

  const SECOND := 1_000_000_000   // nanoseconds

  const DEFAULTS := Pacing(SECOND, 30 * SECOND, 10 * SECOND, 300 * SECOND)

  datatype Session = Dropped(served: nat) | SetupFailed | SessionFailed

  /**
   What happens to one attempt: whether the dial works and how the session ends, how long that takes, whether the
   signal fires meanwhile, and if a wait follows, whether the signal cuts it short and how late its timer fires.
   */
  datatype Attempt = Attempt(dialOk: bool, session: Session, elapsed: nat, signalled: bool, cut: bool, late: nat)

  datatype Status = Running | Stopped | DialFatal | SessionFatal | WindowElapsed

  /** retries counts the waits finished since the outage began. */
  datatype State = State(status: Status, attempt: nat, now: nat, backoff: nat, outage: Option<nat>, retries: nat)

  function Min(a: nat, b: nat): nat { if a < b then a else b }

  /** reconnectWait. */
  function Wait(p: Pacing, s: State, a: Attempt): State {
    var outage := if s.outage.None? then s.now else s.outage.value;
    if s.now - outage > p.window then s.(status := WindowElapsed, outage := Some(outage))
    else if a.cut then s.(status := Stopped, outage := Some(outage))
    else s.(outage := Some(outage), now := s.now + s.backoff + a.late, backoff := Min(s.backoff * 2, p.max),
            attempt := s.attempt + 1, retries := s.retries + 1)
  }

  function Healthy(p: Pacing, s: State): State {
    s.(backoff := p.initial, outage := None, retries := 0)
  }

  /** One turn of the loop. */
  function Step(p: Pacing, s: State, a: Attempt): State {
    var s1 := s.(now := s.now + a.elapsed);
    if s.status != Running then s
    else if a.signalled then s1.(status := Stopped)
    else if !a.dialOk then if s.attempt == 0 then s1.(status := DialFatal) else Wait(p, s1, a)
    else match a.session
      case SetupFailed => if s.attempt > 0 then Wait(p, s1, a) else s1.(status := SessionFatal)
      case SessionFailed => s1.(status := SessionFatal)
      case Dropped(served) => Wait(p, if served >= p.stable then Healthy(p, s1) else s1, a)
  }

  function Run(p: Pacing, attempts: seq<Attempt>): State {
    if attempts == [] then State(Running, 0, 0, p.initial, None, 0)
    else Step(p, Run(p, attempts[..|attempts| - 1]), attempts[|attempts| - 1])
  }

  // ---- the loop itself ---------------------------------------------------------------------

  class Reconnector {
    const pacing: Pacing
    var backoff: nat
    var outage: Option<nat>
    var now: nat            // the clock
    ghost var retries: nat

    constructor (pacing: Pacing)
      ensures this.pacing == pacing && now == 0 && backoff == pacing.initial && outage == None && retries == 0
    {
      this.pacing, now, backoff, outage, retries := pacing, 0, pacing.initial, None, 0;
    }

    ghost function View(status: Status, attempt: nat): State
      reads this
    {
      State(status, attempt, now, backoff, outage, retries)
    }

    /** Paces one failed attempt: Running says try again. */
    method ReconnectWait(ghost attempt: nat, a: Attempt) returns (status: Status)
      modifies this
      ensures var after := Wait(pacing, old(View(Running, attempt)), a);
        status == after.status && View(status, after.attempt) == after
    {
      if outage.None? {
        outage := Some(now);
      }
      if now - outage.value > pacing.window {
        return WindowElapsed;
      }
      if a.cut {
        return Stopped;
      }
      now := now + backoff + a.late;
      backoff := Min(backoff * 2, pacing.max);
      retries := retries + 1;
      return Running;
    }

    /** One attempt and what follows it. */
    method Try(attempt: nat, a: Attempt) returns (status: Status)
      modifies this
      ensures var after := Step(pacing, old(View(Running, attempt)), a);
        status == after.status && View(status, after.attempt) == after
    {
      now := now + a.elapsed;
      if a.signalled {
        return Stopped;
      }
      if !a.dialOk {
        if attempt == 0 {
          return DialFatal;
        }
        status := ReconnectWait(attempt, a);
        return;
      }
      if a.session == SetupFailed && attempt > 0 {
        status := ReconnectWait(attempt, a);
        return;
      }
      if !a.session.Dropped? {
        return SessionFatal;
      }
      if a.session.served >= pacing.stable {
        backoff, outage := pacing.initial, None;
        retries := 0;
      }
      status := ReconnectWait(attempt, a);
    }
  }

  /** serveForever over a given run of attempts; Running says they ran out first. */
  method ServeForever(pacing: Pacing, attempts: seq<Attempt>) returns (status: Status)
    ensures status == Run(pacing, attempts).status
  {
    var r := new Reconnector(pacing);
    status := Running;
    var attempt := 0;
    while attempt < |attempts|
      invariant attempt <= |attempts| && status == Running && r.pacing == pacing
      invariant fresh(r) && r.View(Running, attempt) == Run(pacing, attempts[..attempt])
    {
      assert attempts[..attempt + 1][..attempt] == attempts[..attempt];
      status := r.Try(attempt, attempts[attempt]);
      if status != Running {
        RunStays(pacing, attempts[..attempt + 1], attempts[attempt + 1..]);
        assert attempts[..attempt + 1] + attempts[attempt + 1..] == attempts;
        return;
      }
      RunningCounts(pacing, attempts[..attempt + 1]);
      attempt := attempt + 1;
    }
    assert attempts[..attempt] == attempts;
  }

  lemma {:induction false} RunStays(p: Pacing, attempts: seq<Attempt>, more: seq<Attempt>)
    requires Run(p, attempts).status != Running
    ensures Run(p, attempts + more) == Run(p, attempts)
    decreases |more|
  {
    if more == [] {
      assert attempts + more == attempts;
    } else {
      RunStays(p, attempts, more[..|more| - 1]);
      assert (attempts + more)[..|attempts + more| - 1] == attempts + more[..|more| - 1];
    }
  }

  /** While the loop runs, every attempt so far has been counted. */
  lemma {:induction false} RunningCounts(p: Pacing, attempts: seq<Attempt>)
    ensures Run(p, attempts).status == Running ==> Run(p, attempts).attempt == |attempts|
    decreases |attempts|
  {
    if attempts != [] { RunningCounts(p, attempts[..|attempts| - 1]); }
  }

  // ---- what every run keeps -------------------------------------------------------------------

  function Power(n: nat): nat { if n == 0 then 1 else 2 * Power(n - 1) }

  /** The wait before retry number n of an outage, counted from zero. */
  function Backoff(p: Pacing, n: nat): nat {
    Min(p.initial * Power(n), p.max)
  }

  /** The least time the first n waits of an outage take. */
  function Waited(p: Pacing, n: nat): nat {
    if n == 0 then 0 else Waited(p, n - 1) + Backoff(p, n - 1)
  }

  ghost predicate Paced(p: Pacing, s: State) {
    && s.backoff == Backoff(p, s.retries)
    && (s.outage.None? ==> s.retries == 0)
    && (s.outage.Some? ==> s.outage.value + Waited(p, s.retries) <= s.now)
    && (s.retries > 0 ==> Waited(p, s.retries - 1) <= p.window)
    && (s.status == WindowElapsed ==> s.outage.Some? && s.now - s.outage.value > p.window)
  }

  lemma BackoffDoubles(p: Pacing, n: nat)
    ensures Backoff(p, n + 1) == Min(Backoff(p, n) * 2, p.max)
  {
    var a := p.initial * Power(n);
    assert p.initial * Power(n + 1) == a * 2;
  }

  lemma WaitKeeps(p: Pacing, s: State, a: Attempt)
    requires p.initial <= p.max && Paced(p, s) && s.status == Running
    ensures Paced(p, Wait(p, s, a))
  {
    hide Backoff;
    BackoffDoubles(p, s.retries);
  }

  lemma StepKeeps(p: Pacing, s: State, a: Attempt)
    requires p.initial <= p.max && Paced(p, s)
    ensures Paced(p, Step(p, s, a))
  {
    hide Wait;
    var s1 := s.(now := s.now + a.elapsed);
    if s.status == Running {
      WaitKeeps(p, s1, a);
      assert Paced(p, Healthy(p, s1)) by { assert p.initial * Power(0) == p.initial; }
      WaitKeeps(p, Healthy(p, s1), a);
    }
  }

  /**
   In every run the next wait is the initial one doubled once per retry of the outage, capped; no outage means the
   initial one.
   */
  lemma {:induction false} RunIsPaced(p: Pacing, attempts: seq<Attempt>)
    requires p.initial <= p.max
    ensures Paced(p, Run(p, attempts))
    decreases |attempts|
  {
    if attempts == [] {
      assert p.initial * Power(0) == p.initial;
    } else {
      RunIsPaced(p, attempts[..|attempts| - 1]);
      StepKeeps(p, Run(p, attempts[..|attempts| - 1]), attempts[|attempts| - 1]);
    }
  }

  lemma {:induction false} WaitedGrows(p: Pacing, m: nat, n: nat)
    requires m <= n
    ensures Waited(p, m) <= Waited(p, n)
    decreases n - m
  {
    if m < n { WaitedGrows(p, m, n - 1); }
  }

  /** One outage gets at most as many retries as fit its window. */
  lemma RetriesBounded(p: Pacing, attempts: seq<Attempt>, n: nat)
    requires p.initial <= p.max && Waited(p, n) > p.window
    ensures Run(p, attempts).retries <= n
  {
    RunIsPaced(p, attempts);
    var r := Run(p, attempts).retries;
    if r > n { WaitedGrows(p, n, r - 1); }
  }

  /** With the shipped pacing an outage gets at most 14 retries, whatever short sessions happen in between. */
  lemma FourteenRetries(attempts: seq<Attempt>)
    ensures Run(DEFAULTS, attempts).retries <= 14
    ensures DEFAULTS == Pacing(1_000_000_000, 30_000_000_000, 10_000_000_000, 300_000_000_000)
  {
    WaitedByDefault();
    RetriesBounded(DEFAULTS, attempts, 14);
  }

  lemma WaitedByDefault()
    ensures Waited(DEFAULTS, 5) == 31 * SECOND && Waited(DEFAULTS, 14) == 301 * SECOND
  {
    assert Power(1) == 2 && Power(2) == 4 && Power(3) == 8 && Power(4) == 16 && Power(5) == 32;
    OneMore(0);
    OneMore(1);
    OneMore(2);
    OneMore(3);
    OneMore(4);
    Capped(5);
    Capped(6);
    Capped(7);
    Capped(8);
    Capped(9);
    Capped(10);
    Capped(11);
    Capped(12);
    Capped(13);
  }

  lemma OneMore(n: nat)
    ensures Waited(DEFAULTS, n + 1) == Waited(DEFAULTS, n) + Min(SECOND * Power(n), 30 * SECOND)
  {
  }

  lemma {:induction false} Capped(n: nat)
    requires n >= 5
    ensures Power(n) >= 32 && Waited(DEFAULTS, n + 1) == Waited(DEFAULTS, n) + 30 * SECOND
  {
    if n > 5 { Capped(n - 1); } else { assert Power(3) == 8; }
  }

  const DROP := Attempt(true, Dropped(0), 0, false, false, 0)

  /** Sessions that drop at once, on punctual timers. */
  function Drops(n: nat): seq<Attempt> {
    if n == 0 then [] else Drops(n - 1) + [DROP]
  }

  lemma RunDrops(n: nat)
    ensures Run(DEFAULTS, Drops(n + 1)) == Step(DEFAULTS, Run(DEFAULTS, Drops(n)), DROP)
  {
    assert (Drops(n) + [DROP])[..|Drops(n)|] == Drops(n);
  }

  lemma {:induction false} DropsWait(n: nat)
    requires n <= 14
    ensures Run(DEFAULTS, Drops(n)) ==
      State(Running, n, Waited(DEFAULTS, n), Backoff(DEFAULTS, n), if n == 0 then None else Some(0), n)
  {
    if n > 0 {
      DropsWait(n - 1);
      RunDrops(n - 1);
      WaitedGrows(DEFAULTS, n - 1, 13);
      WaitedByDefault();
      Capped(13);
      BackoffDoubles(DEFAULTS, n - 1);
    } else {
      assert Power(0) == 1;
    }
  }

  /** The bound is met: fourteen retries, then the exit. */
  lemma FourteenIsReached()
    ensures Run(DEFAULTS, Drops(15)).retries == 14 && Run(DEFAULTS, Drops(15)).status == WindowElapsed
  {
    hide Run, Drops;
    DropsWait(14);
    RunDrops(14);
    WaitedByDefault();
  }

  /**
   A retried attempt starts the outage over, at the moment of the drop, exactly when its session was healthy or there
   was no outage; otherwise the outage goes on from its old start and this is one more retry of it.
   */
  lemma OutageLasts(p: Pacing, attempts: seq<Attempt>, a: Attempt)
    requires p.initial <= p.max && Run(p, attempts + [a]).status == Running
    ensures var s := Run(p, attempts); var s' := Run(p, attempts + [a]);
      var healthy := a.dialOk && a.session.Dropped? && a.session.served >= p.stable;
      && s.status == Running && s'.outage.Some? && s'.backoff == Backoff(p, s'.retries)
      && s'.now == s.now + a.elapsed + (if healthy then p.initial else s.backoff) + a.late
      && (if healthy || s.outage.None? then s'.outage.value == s.now + a.elapsed && s'.retries == 1
          else s'.outage == s.outage && s'.retries == s.retries + 1)
  {
    hide Paced, Backoff, Step;
    assert (attempts + [a])[..|attempts|] == attempts;
    RunIsPaced(p, attempts);
    RunIsPaced(p, attempts + [a]);
    PacedFacts(p, Run(p, attempts));
    PacedFacts(p, Run(p, attempts + [a]));
    OutageStep(p, Run(p, attempts), a);
  }

  lemma OutageStep(p: Pacing, s: State, a: Attempt)
    requires Step(p, s, a).status == Running && (s.outage.None? ==> s.retries == 0)
    ensures var s' := Step(p, s, a);
      var healthy := a.dialOk && a.session.Dropped? && a.session.served >= p.stable;
      && s.status == Running && s'.outage.Some?
      && s'.now == s.now + a.elapsed + (if healthy then p.initial else s.backoff) + a.late
      && (if healthy || s.outage.None? then s'.outage.value == s.now + a.elapsed && s'.retries == 1
          else s'.outage == s.outage && s'.retries == s.retries + 1)
  {
  }

  lemma PacedFacts(p: Pacing, s: State)
    requires Paced(p, s)
    ensures s.backoff == Backoff(p, s.retries) && (s.outage.None? ==> s.retries == 0)
  {
  }

  // ---- the outage, told by the whole history ------------------------------------------------------

  predicate HadHealthy(p: Pacing, a: Attempt) {
    a.dialOk && a.session.Dropped? && a.session.served >= p.stable
  }

  /** The last attempt with a healthy session; the very first attempt when there was none. */
  function LastHealthy(p: Pacing, attempts: seq<Attempt>): (n: nat)
    ensures attempts != [] ==> n < |attempts|
  {
    if |attempts| <= 1 || HadHealthy(p, attempts[|attempts| - 1]) then if attempts == [] then 0 else |attempts| - 1
    else LastHealthy(p, attempts[..|attempts| - 1])
  }

  /** When attempt n failed or dropped. */
  function EndOf(p: Pacing, attempts: seq<Attempt>, n: nat): nat
    requires n < |attempts|
  {
    Run(p, attempts[..n]).now + attempts[n].elapsed
  }

  /** While the loop runs, the outage began when the last healthy session dropped, or the first one if none was. */
  lemma {:induction false} OutageBegan(p: Pacing, attempts: seq<Attempt>)
    requires Run(p, attempts).status == Running && attempts != []
    ensures Run(p, attempts).outage == Some(EndOf(p, attempts, LastHealthy(p, attempts)))
    decreases |attempts|
  {
    var n := |attempts| - 1;
    var front, a := attempts[..n], attempts[n];
    RunningCounts(p, front);
    if n > 0 {
      StillRunning(p, Run(p, front), a);
      OutageBegan(p, front);
      assert attempts[..LastHealthy(p, front)] == front[..LastHealthy(p, front)];
    }
  }

  lemma StillRunning(p: Pacing, s: State, a: Attempt)
    requires Step(p, s, a).status == Running
    ensures s.status == Running
  {
  }

  /**
   An attempt ends the process with an error exactly when, with no signal, its first dial fails, its session fails for
   good, or it fails and may be retried but more than the window has passed since the last healthy session dropped, or
   since the first drop if there was none. It stops without one exactly on a signal, during the attempt or its wait.
   */
  lemma FatalIff(p: Pacing, attempts: seq<Attempt>, a: Attempt)
    requires Run(p, attempts).status == Running
    ensures var s := Run(p, attempts); var s' := Run(p, attempts + [a]); var first := attempts == [];
      && (s'.status == DialFatal <==> !a.signalled && !a.dialOk && first)
      && (s'.status == SessionFatal <==>
            !a.signalled && a.dialOk && (a.session == SessionFailed || (a.session == SetupFailed && first)))
      && (s'.status == WindowElapsed <==>
            && !a.signalled && !first && !HadHealthy(p, a) && !(a.dialOk && a.session == SessionFailed)
            && s.now + a.elapsed - EndOf(p, attempts, LastHealthy(p, attempts)) > p.window)
      && (s'.status == Stopped <==>
            a.signalled || (a.cut && s'.status !in {DialFatal, SessionFatal, WindowElapsed}))
  {
    hide LastHealthy, EndOf, Step, Wait;
    assert (attempts + [a])[..|attempts|] == attempts;
    RunningCounts(p, attempts);
    if attempts != [] { OutageBegan(p, attempts); }
    FatalStep(p, Run(p, attempts), a);
  }

  /**
   With the shipped pacing: ten seconds of service make a session healthy, a healthy session's next wait is one second,
   no wait is asked to be longer than thirty, and a retry is refused for good exactly when it comes more than five
   minutes after the last healthy session dropped, or after the first drop if there was none.
   */
  lemma ShippedPacing(attempts: seq<Attempt>, a: Attempt)
    requires Run(DEFAULTS, attempts).status == Running
    ensures var s := Run(DEFAULTS, attempts); var s' := Run(DEFAULTS, attempts + [a]);
      var healthy := a.dialOk && a.session.Dropped? && a.session.served >= 10_000_000_000;
      && s'.backoff <= 30_000_000_000
      && (healthy && s'.status == Running ==>
            && s'.outage == Some(s.now + a.elapsed)
            && s'.now == s.now + a.elapsed + 1_000_000_000 + a.late && s'.backoff == 2_000_000_000)
      && (s'.status == WindowElapsed <==>
            && !a.signalled && attempts != [] && !healthy && !(a.dialOk && a.session == SessionFailed)
            && s.now + a.elapsed - EndOf(DEFAULTS, attempts, LastHealthy(DEFAULTS, attempts)) > 300_000_000_000)
  {
    hide LastHealthy, EndOf, Run;
    FatalIff(DEFAULTS, attempts, a);
    RunIsPaced(DEFAULTS, attempts + [a]);
    if HadHealthy(DEFAULTS, a) && Run(DEFAULTS, attempts + [a]).status == Running { HealthyWaits(attempts, a); }
  }

  lemma HealthyWaits(attempts: seq<Attempt>, a: Attempt)
    requires a.dialOk && a.session.Dropped? && a.session.served >= 10_000_000_000
    requires Run(DEFAULTS, attempts + [a]).status == Running
    ensures var s := Run(DEFAULTS, attempts); var s' := Run(DEFAULTS, attempts + [a]);
      && s'.outage == Some(s.now + a.elapsed)
      && s'.now == s.now + a.elapsed + 1_000_000_000 + a.late && s'.backoff == 2_000_000_000
  {
    assert (attempts + [a])[..|attempts|] == attempts;
  }

  lemma FatalStep(p: Pacing, s: State, a: Attempt)
    requires s.status == Running && (s.attempt > 0 ==> s.outage.Some?)
    ensures var s' := Step(p, s, a); var first := s.attempt == 0;
      && (s'.status == DialFatal <==> !a.signalled && !a.dialOk && first)
      && (s'.status == SessionFatal <==>
            !a.signalled && a.dialOk && (a.session == SessionFailed || (a.session == SetupFailed && first)))
      && (s.outage.None? ==> s'.status != WindowElapsed)
      && (s.outage.Some? ==>
            (s'.status == WindowElapsed <==>
              && !a.signalled && !(first && (!a.dialOk || a.session == SetupFailed)) && !HadHealthy(p, a)
              && !(a.dialOk && a.session == SessionFailed) && s.now + a.elapsed - s.outage.value > p.window))
      && (s'.status == Stopped <==>
            a.signalled || (a.cut && s'.status !in {DialFatal, SessionFatal, WindowElapsed}))
  {
  }
}
