/**
 The pool as the program holds it: sharedUpstream and Handler objects whose fields change in place.
 Each method is the body of one critical section; its postcondition is the function of UpstreamPool
 that the transition system steps with, so every theorem about runs speaks about these methods.
 */
module PoolHandler {
  import opened Common
  import opened UpstreamPool

  /** sharedUpstream: ready is the pair dialing/signalled, uc says the conn was installed. */
  class SharedUpstream {
    ghost const id: Uid
    const key: PoolKey
    var refs: int
    var closed: bool
    var dialing: bool
    var signalled: bool
    var dialErr: bool
    var dialCanceled: bool
    var uc: bool
    var idleTimer: Timer
    ghost var grace: nat
    var conn: Conn

    ghost function Record(): Upstream
      reads this
    {
      Upstream(key, refs, closed, dialing, signalled, dialErr, dialCanceled, uc, idleTimer, grace, conn)
    }

    constructor (ghost id: Uid, key: PoolKey)
      ensures this.id == id && Record() == Dialer(key)
    {
      this.id, this.key := id, key;
      refs, closed, dialing, signalled := 1, false, true, false;
      dialErr, dialCanceled, uc := false, false, false;
      idleTimer, grace, conn := NoTimer, 0, NoConn;
    }
  }

  /** What one pass of the loop tells its caller to do. */
  datatype Move = Refuse | Use(u: SharedUpstream) | Park(u: SharedUpstream) | Handshake(u: SharedUpstream)

  ghost function MoveDecision(m: Move): Decision {
    match m
    case Refuse => Refused
    case Use(u) => Acquired(u.id)
    case Park(u) => Wait(u.id)
    case Handshake(u) => Dial(u.id)
  }

  class Handler {
    var upstreams: map<PoolKey, SharedUpstream>
    var draining: bool
    ghost var all: map<Uid, SharedUpstream>   // every upstream ever created

    ghost predicate Valid()
      reads this
    {
      && (forall i :: i in all ==> all[i].id == i)
      && (forall k :: k in upstreams ==> upstreams[k].id in all && all[upstreams[k].id] == upstreams[k])
    }

    ghost predicate Knows(u: SharedUpstream)
      reads this
    {
      u.id in all && all[u.id] == u
    }

    ghost function View(): Pool
      requires Valid()
      reads this, all.Values
    {
      Pool(map i | i in all :: all[i].Record(), map k | k in upstreams :: upstreams[k].id, draining)
    }

    constructor ()
      ensures Valid() && View() == Empty
    {
      upstreams, draining, all := map[], false, map[];
    }

    /** When u is the only upstream touched, the view changes at u alone. */
    twostate lemma OneTouched(u: SharedUpstream)
      requires old(Valid()) && Valid() && all == old(all) && old(Knows(u))
      requires forall i :: i in all && all[i] != u ==> all[i].Record() == old(all[i].Record())
      ensures View() == Pool(old(View()).ups[u.id := u.Record()], map k | k in upstreams :: upstreams[k].id, draining)
      ensures upstreams == old(upstreams) ==> View().byKey == old(View()).byKey
    {
      assert View().ups == old(View()).ups[u.id := u.Record()];
    }

    method AcquireLocked(u: SharedUpstream)
      requires Valid() && Knows(u)
      modifies u`refs, u`idleTimer
      ensures Valid() && View() == UpstreamPool.AcquireLocked(old(View()), u.id)
    {
      u.refs := u.refs + 1;
      if u.idleTimer != NoTimer {
        u.idleTimer := NoTimer;
      }
      OneTouched(u);
    }

    /** The top of the getOrCreateUpstream loop, up to the point where it unlocks. */
    method BeginPass(k: PoolKey, ghost spare: Uid) returns (m: Move)
      requires Valid() && spare !in all
      modifies this, all.Values
      ensures Valid()
      ensures (MoveDecision(m), View()) == Pass(old(View()), k, spare)
      ensures m.Refuse? || Knows(m.u)
    {
      if draining {
        return Refuse;
      }
      if k in upstreams && !upstreams[k].closed {
        var u := upstreams[k];
        if !u.dialing {
          AcquireLocked(u);
          return Use(u);
        }
        return Park(u);
      }
      var u := InstallDialer(k, spare);
      return Handshake(u);
    }

    /** A fresh entry for k whose creator is its sole dialer. */
    method InstallDialer(k: PoolKey, ghost spare: Uid) returns (u: SharedUpstream)
      requires Valid() && spare !in all
      modifies this
      ensures Valid() && Knows(u) && u.id == spare && fresh(u)
      ensures View() == old(View()).(ups := old(View()).ups[spare := Dialer(k)], byKey := old(View()).byKey[k := spare])
    {
      u := new SharedUpstream(spare, k);
      upstreams := upstreams[k := u];
      all := all[spare := u];
      assert View().ups == old(View()).ups[spare := Dialer(k)];
      assert View().byKey == old(View()).byKey[k := spare];
    }

    /** Deletes u's key from the map only while it still names u. */
    method Unmap(u: SharedUpstream)
      requires Valid() && Knows(u)
      modifies `upstreams
      ensures Valid() && View() == old(View()).(byKey := UpstreamPool.Unmap(old(View()), u.id))
    {
      ghost var q := View();
      if u.key in upstreams && upstreams[u.key] == u {
        DeleteKey(u.key);
      }
      assert View().ups == q.ups && View().byKey == UpstreamPool.Unmap(q, u.id);
    }

    /** The dialer is back under the lock with an error. */
    method DialFailed(u: SharedUpstream, canceled: bool)
      requires Valid() && Knows(u)
      modifies this, u
      ensures Valid() && all == old(all) && View() == DialFails(old(View()), u.id, canceled)
    {
      u.dialing := false;
      u.dialErr := true;
      u.dialCanceled := canceled;
      u.closed := true;
      OneTouched(u);
      Unmap(u);
    }

    /** The dialer is back under the lock with a connection; a drained entry does not take it. */
    method DialLanded(u: SharedUpstream) returns (installed: bool)
      requires Valid() && Knows(u)
      modifies u
      ensures Valid() && (installed, View()) == DialLands(old(View()), u.id)
    {
      u.dialing := false;
      u.conn := Open;
      u.uc := !u.closed;
      OneTouched(u);
      return u.uc;
    }

    method CloseReady(u: SharedUpstream)
      requires Valid() && Knows(u)
      modifies u`signalled
      ensures Valid() && View() == Signal(old(View()), u.id)
    {
      u.signalled := true;
      OneTouched(u);
    }

    method CloseConn(u: SharedUpstream)
      requires Valid() && Knows(u)
      modifies u`conn
      ensures Valid() && View() == UpstreamPool.CloseConn(old(View()), u.id)
    {
      u.conn := Closed;
      OneTouched(u);
    }

    method TryAcquire(u: SharedUpstream) returns (ok: bool)
      requires Valid() && Knows(u)
      modifies u
      ensures Valid() && (ok, View()) == UpstreamPool.TryAcquire(old(View()), u.id)
    {
      if u.closed {
        return false;
      }
      AcquireLocked(u);
      return true;
    }

    method Release(u: SharedUpstream)
      requires Valid() && Knows(u)
      modifies u
      ensures Valid() && View() == UpstreamPool.Release(old(View()), u.id)
    {
      u.refs := u.refs - 1;
      if u.refs > 0 || u.closed {
        OneTouched(u);
        return;
      }
      u.idleTimer := Armed;
      u.grace := u.grace + 1;
      OneTouched(u);
    }

    method IdleClose(u: SharedUpstream) returns (close: bool)
      requires Valid() && Knows(u)
      modifies this, u
      ensures Valid() && all == old(all) && (close, View()) == UpstreamPool.IdleClose(old(View()), u.id)
    {
      if u.closed || u.refs > 0 {
        return false;
      }
      u.closed := true;
      OneTouched(u);
      Unmap(u);
      return true;
    }

    method Evict(u: SharedUpstream) returns (close: bool)
      requires Valid() && Knows(u)
      modifies this, u
      ensures Valid() && all == old(all) && (close, View()) == UpstreamPool.Evict(old(View()), u.id)
    {
      if u.closed {
        return false;
      }
      Shut(u);
      Unmap(u);
      return true;
    }

    /** Marks u closed and stops its idle timer, under the lock. */
    method Shut(u: SharedUpstream)
      requires Valid() && Knows(u)
      modifies u`closed, u`idleTimer
      ensures Valid() && u.closed && u.idleTimer == NoTimer
      ensures View() == old(View()).(ups := old(View()).ups[u.id := old(u.Record()).(closed := true, timer := NoTimer)])
    {
      u.closed := true;
      if u.idleTimer != NoTimer {
        u.idleTimer := NoTimer;
      }
      OneTouched(u);
    }

    method BeginDrain()
      requires Valid()
      modifies `draining
      ensures Valid() && View() == UpstreamPool.BeginDrain(old(View()))
    {
      draining := true;
    }
  
    method DeleteKey(k: PoolKey)
      requires Valid() && k in upstreams
      modifies `upstreams
      ensures Valid() && upstreams == old(upstreams) - {k}
      ensures View() == old(View()).(byKey := old(View()).byKey - {k})
    {
      ghost var p := View();
      upstreams := upstreams - {k};
      assert View().ups == p.ups && View().byKey == p.byKey - {k};
    }

    /** One turn of the drain loop: the upstream pooled under k is closed and unmapped. */
    method RetirePooled(k: PoolKey) returns (u: SharedUpstream)
      requires Valid() && k in upstreams && upstreams[k].key == k
      modifies this, upstreams[k]
      ensures Valid() && all == old(all) && Knows(u) && u == old(upstreams[k]) && upstreams == old(upstreams) - {k}
      ensures u.uc == old(u.uc) && View() == Retired(old(View()), k)
    {
      u := upstreams[k];
      Shut(u);
      DeleteKey(u.key);
    }

    /** Where the drain loop stands: the entries in done are retired, live holds those with a conn to close. */
    ghost predicate Drains(before: Pool, done: set<Uid>, live: set<SharedUpstream>)
      reads this, all.Values
    {
      && Valid() && MapSound(before) && DrainedPart(before, View(), done)
      && done <= before.ups.Keys <= all.Keys
      && (forall u :: u in live ==> Knows(u) && u.id in done && before.ups[u.id].uc)
      && (forall i :: i in done && before.ups[i].uc ==> all[i] in live)
    }

    lemma ViewFacts()
      requires Valid()
      ensures View().ups.Keys == all.Keys && View().byKey.Keys == upstreams.Keys
      ensures upstreams.Keys == {} ==> View().byKey == map[]
    {
    }

    /** While the loop runs, what is pooled under k is as it was when the loop began. */
    lemma PooledHere(before: Pool, done: set<Uid>, k: PoolKey)
      requires Valid() && MapSound(before) && DrainedPart(before, View(), done) && k in upstreams
      ensures View().byKey[k] == upstreams[k].id && upstreams[k].key == k
      ensures upstreams[k].id in before.ups && upstreams[k].uc == before.ups[upstreams[k].id].uc
    {
      hide UpstreamOk;
      assert before.byKey[k] == upstreams[k].id;
      assert View().ups[upstreams[k].id] == upstreams[k].Record();
    }

    lemma Names(live: set<SharedUpstream>, done: set<Uid>, before: Pool)
      requires done <= before.ups.Keys <= all.Keys && Valid()
      requires forall u :: u in live ==> Knows(u) && u.id in done && before.ups[u.id].uc
      requires forall i :: i in done && before.ups[i].uc ==> all[i] in live
      ensures (set u | u in live :: u.id) == set i | i in done && before.ups[i].uc
    {
      forall i | i in done && before.ups[i].uc ensures i in set u | u in live :: u.id {
        assert all[i] in live && all[i].id == i;
      }
    }

    /** One turn of the drain loop. */
    method DrainTurn(live: set<SharedUpstream>, ghost before: Pool, ghost done: set<Uid>)
      returns (live': set<SharedUpstream>, ghost done': set<Uid>)
      requires Drains(before, done, live) && upstreams.Keys != {}
      modifies this, all.Values
      ensures Drains(before, done', live') && all == old(all) && upstreams.Keys < old(upstreams.Keys)
    {
      hide MapSound, UpstreamOk, DrainedPart, Retired, View;
      var k :| k in upstreams.Keys;
      ghost var here := View();
      ViewFacts();
      PooledHere(before, done, k);
      var u := RetirePooled(k);
      DrainsOne(before, here, done, k);
      done' := done + {u.id};
      live' := if u.uc then live + {u} else live;
    }

    /**
     The locked half of drainUpstreams: closes and unmaps every pooled upstream, one at a time, and
     returns those whose connection the caller must now close.
     */
    method DrainUpstreams() returns (live: set<SharedUpstream>)
      requires Valid() && MapSound(View())
      modifies this, all.Values
      ensures Valid() && all == old(all)
      ensures View() == DrainAll(old(View())).1
      ensures (set u | u in live :: u.id) == DrainAll(old(View())).0
    {
      hide MapSound, UpstreamOk, DrainedPart, DrainAll, View;
      ghost var before, done: set<Uid> := View(), {};
      live := {};
      ViewFacts();
      DrainsNone(before);
      while upstreams.Keys != {}
        invariant Drains(before, done, live) && all == old(all)
        decreases upstreams.Keys
      {
        live, done := DrainTurn(live, before, done);
      }
      ViewFacts();
      DrainsAll(before, View(), done);
      Names(live, done, before);
    }
  }

  // ---- the drain loop, entry by entry ---------------------------------------------

  ghost function Retired(p: Pool, k: PoolKey): Pool
    requires k in p.byKey && p.byKey[k] in p.ups
  {
    var u := p.byKey[k];
    p.(ups := p.ups[u := p.ups[u].(closed := true, timer := NoTimer)], byKey := p.byKey - {k})
  }

  /** q is p after the entries in done were retired: exactly those are gone from the key map. */
  ghost predicate DrainedPart(p: Pool, q: Pool, done: set<Uid>) {
    && p.ups.Keys == q.ups.Keys && p.draining == q.draining && done <= p.byKey.Values && done <= p.ups.Keys
    && (forall i :: i in p.ups ==>
          q.ups[i] == if i in done then p.ups[i].(closed := true, timer := NoTimer) else p.ups[i])
    && (forall k :: k in q.byKey <==> k in p.byKey && p.byKey[k] !in done)
    && (forall k :: k in q.byKey ==> q.byKey[k] == p.byKey[k])
  }

  lemma DrainsNone(p: Pool)
    ensures DrainedPart(p, p, {})
  {
  }

  lemma DrainsOne(p: Pool, q: Pool, done: set<Uid>, k: PoolKey)
    requires MapSound(p) && DrainedPart(p, q, done) && k in q.byKey
    ensures DrainedPart(p, Retired(q, k), done + {q.byKey[k]})
    ensures q.byKey[k] in p.ups && q.byKey[k] !in done && q.ups[q.byKey[k]] == p.ups[q.byKey[k]]
  {
  }

  lemma DrainsAll(p: Pool, q: Pool, done: set<Uid>)
    requires MapSound(p) && DrainedPart(p, q, done) && q.byKey == map[]
    ensures done <= p.ups.Keys == q.ups.Keys
    ensures q == DrainAll(p).1 && DrainAll(p).0 == set i | i in done && p.ups[i].uc
  {
    assert forall k :: k in p.byKey ==> p.byKey[k] in done;
    assert done == p.byKey.Values;
    assert q.ups == DrainAll(p).1.ups;
  }
}
