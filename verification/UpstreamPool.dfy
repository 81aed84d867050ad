/**
 The refcounted upstream pool (sidescale/noise/upstreampool.go, drainUpstreams in shutdown.go), as values.
 Every function here is one critical section: what a goroutine does to the pool while it holds h.mu.
 Upstreams are never forgotten, so "ever created" can be spoken about; byKey is the map h.upstreams.
 */
module UpstreamPool {
  import opened Common

  type Uid = nat

  datatype PoolKey = PoolKey(id: string, host: string, version: nat, session: string)

  /** u.idleTimer: nil, set and still pending, or set and already fired. */
  datatype Timer = NoTimer | Armed | Fired

  /** The network connection behind an upstream, as the outside world sees it. */
  datatype Conn = NoConn | Open | Closed

  datatype Upstream = Upstream(
    key: PoolKey,
    refs: int,
    closed: bool,
    dialing: bool,        // ready is non-nil: the dial has not been resolved
    signalled: bool,      // the ready channel has been closed, so waiters wake
    dialErr: bool,
    dialCanceled: bool,
    uc: bool,             // uc is set: the dial landed and was installed
    timer: Timer,
    grace: nat,           // how many idle timers were ever armed; names the current one
    conn: Conn)

  datatype Pool = Pool(ups: map<Uid, Upstream>, byKey: map<PoolKey, Uid>, draining: bool)

  const Empty := Pool(map[], map[], false)

  // ---- the critical sections -------------------------------------------------

  /** What one pass of the getOrCreateUpstream loop decides. */
  datatype Decision = Refused | Acquired(u: Uid) | Wait(u: Uid) | Dial(u: Uid)

  function Dialer(k: PoolKey): Upstream {
    Upstream(k, 1, false, true, false, false, false, false, NoTimer, 0, NoConn)
  }

  function AcquireLocked(p: Pool, u: Uid): Pool
    requires u in p.ups
  {
    p.(ups := p.ups[u := p.ups[u].(refs := p.ups[u].refs + 1, timer := NoTimer)])
  }

  /** The top of the loop; a dialer's entry is created under the given unused name. */
  function Pass(p: Pool, k: PoolKey, spare: Uid): (Decision, Pool) {
    if p.draining then
      (Refused, p)
    else if k in p.byKey && p.byKey[k] in p.ups && !p.ups[p.byKey[k]].closed then
      var u := p.byKey[k];
      if !p.ups[u].dialing then (Acquired(u), AcquireLocked(p, u)) else (Wait(u), p)
    else
      (Dial(spare), p.(ups := p.ups[spare := Dialer(k)], byKey := p.byKey[k := spare]))
  }

  /** Drops u's own entry of the key map, and nobody else's. */
  function Unmap(p: Pool, u: Uid): map<PoolKey, Uid>
    requires u in p.ups
  {
    var k := p.ups[u].key;
    if k in p.byKey && p.byKey[k] == u then p.byKey - {k} else p.byKey
  }

  /** The dialer comes back with an error; canceled says its own context was canceled. */
  function DialFails(p: Pool, u: Uid, canceled: bool): Pool
    requires u in p.ups
  {
    p.(ups := p.ups[u := p.ups[u].(dialing := false, dialErr := true, dialCanceled := canceled, closed := true)],
       byKey := Unmap(p, u))
  }

  /** The dialer comes back with a connection, installed unless the entry was drained meanwhile. */
  function DialLands(p: Pool, u: Uid): (bool, Pool)
    requires u in p.ups
  {
    var installed := !p.ups[u].closed;
    (installed, p.(ups := p.ups[u := p.ups[u].(dialing := false, conn := Open, uc := installed)]))
  }

  /** close(ready), after the lock is gone. */
  function Signal(p: Pool, u: Uid): Pool
    requires u in p.ups
  {
    p.(ups := p.ups[u := p.ups[u].(signalled := true)])
  }

  /** uc.close(), after the lock is gone. */
  function CloseConn(p: Pool, u: Uid): Pool
    requires u in p.ups
  {
    p.(ups := p.ups[u := p.ups[u].(conn := Closed)])
  }

  function TryAcquire(p: Pool, u: Uid): (bool, Pool)
    requires u in p.ups
  {
    if p.ups[u].closed then (false, p) else (true, AcquireLocked(p, u))
  }

  function Release(p: Pool, u: Uid): Pool
    requires u in p.ups
  {
    var x := p.ups[u].(refs := p.ups[u].refs - 1);
    if x.refs > 0 || x.closed then p.(ups := p.ups[u := x])
    else p.(ups := p.ups[u := x.(timer := Armed, grace := x.grace + 1)])
  }

  /** The runtime fires a pending timer: its callback is now on its way to the lock. */
  function Fire(p: Pool, u: Uid): Pool
    requires u in p.ups
  {
    p.(ups := p.ups[u := p.ups[u].(timer := Fired)])
  }

  function IdleClose(p: Pool, u: Uid): (bool, Pool)
    requires u in p.ups
  {
    if p.ups[u].closed || p.ups[u].refs > 0 then (false, p)
    else (true, p.(ups := p.ups[u := p.ups[u].(closed := true)], byKey := Unmap(p, u)))
  }

  function Evict(p: Pool, u: Uid): (bool, Pool)
    requires u in p.ups
  {
    if p.ups[u].closed then (false, p)
    else (true, p.(ups := p.ups[u := p.ups[u].(closed := true, timer := NoTimer)], byKey := Unmap(p, u)))
  }

  function BeginDrain(p: Pool): Pool {
    p.(draining := true)
  }

  /** Every pooled entry is closed and unmapped; the connections to close are those already installed. */
  function DrainAll(p: Pool): (set<Uid>, Pool) {
    var toClose := set u | u in p.byKey.Values && u in p.ups && p.ups[u].uc;
    var ups := map u | u in p.ups ::
      if u in p.byKey.Values then p.ups[u].(closed := true, timer := NoTimer) else p.ups[u];
    (toClose, p.(ups := ups, byKey := map[]))
  }

  // ---- the shape every critical section keeps ---------------------------------

  /** One upstream's fields fit together. */
  ghost predicate UpstreamOk(x: Upstream, draining: bool) {
    && (x.dialing ==> !x.uc && x.refs == 1 && x.timer == NoTimer && !x.dialErr && x.conn == NoConn && !x.signalled)
    && (x.dialing && x.closed ==> draining)
    && (x.uc ==> !x.dialing && x.conn != NoConn)
    && (!x.closed ==> x.dialing || x.uc)
    && (!x.closed ==> x.conn != Closed)
    && (x.dialErr ==> !x.dialing && !x.uc && x.conn == NoConn)
    && (!x.dialing && !x.uc && !x.dialErr ==> x.closed && draining && x.conn != NoConn)
    && (x.timer != NoTimer ==> x.uc)
    && (x.timer == Armed && !x.closed ==> x.refs == 0)
    && x.refs >= 0
  }

  ghost predicate MapSound(p: Pool) {
    forall k :: k in p.byKey ==> p.byKey[k] in p.ups && p.ups[p.byKey[k]].key == k && !p.ups[p.byKey[k]].closed
  }

  ghost predicate MapComplete(p: Pool) {
    forall u :: u in p.ups && !p.ups[u].closed ==> p.ups[u].key in p.byKey && p.byKey[p.ups[u].key] == u
  }

  ghost predicate DialsApart(p: Pool) {
    forall u, v ::
      u in p.ups && v in p.ups && p.ups[u].dialing && p.ups[v].dialing && p.ups[u].key == p.ups[v].key ==> u == v
  }

  /** The key map is exactly the live upstreams, each under its own key, and dials never share a key. */
  ghost predicate PoolOk(p: Pool) {
    && (forall u :: u in p.ups ==> UpstreamOk(p.ups[u], p.draining))
    && MapSound(p) && MapComplete(p) && DialsApart(p)
  }

  /** What can only move one way in the life of an upstream. */
  ghost predicate UpstreamGrows(x: Upstream, y: Upstream) {
    && x.key == y.key && x.grace <= y.grace
    && (y.grace == x.grace && y.timer == Armed ==> x.timer == Armed)
    && (x.closed ==> y.closed) && (x.uc ==> y.uc) && (x.signalled ==> y.signalled)
    && (!x.dialing ==> !y.dialing && y.dialErr == x.dialErr && y.dialCanceled == x.dialCanceled && y.uc == x.uc)
  }

  ghost predicate PoolGrows(p: Pool, q: Pool) {
    && (forall u :: u in p.ups ==> u in q.ups && UpstreamGrows(p.ups[u], q.ups[u]))
    && (p.draining ==> q.draining)
    && (p.draining && p.byKey == map[] ==> q.byKey == map[])
  }

  // ---- each critical section keeps the shape ----------------------------------

  /** Rewriting one upstream in place, without closing it or starting a dial. */
  lemma TouchKeeps(p: Pool, u: Uid, x: Upstream)
    requires PoolOk(p) && u in p.ups && UpstreamOk(x, p.draining) && UpstreamGrows(p.ups[u], x)
    requires x.closed == p.ups[u].closed
    ensures PoolOk(p.(ups := p.ups[u := x])) && PoolGrows(p, p.(ups := p.ups[u := x]))
  {
  }

  /** Closing one live upstream and dropping its own entry of the key map. */
  lemma RetireKeeps(p: Pool, u: Uid, x: Upstream)
    requires PoolOk(p) && u in p.ups && UpstreamOk(x, p.draining) && UpstreamGrows(p.ups[u], x) && x.closed
    ensures PoolOk(p.(ups := p.ups[u := x], byKey := Unmap(p, u)))
    ensures PoolGrows(p, p.(ups := p.ups[u := x], byKey := Unmap(p, u)))
  {
    var k := p.ups[u].key;
    if p.ups[u].closed {
      assert Unmap(p, u) == p.byKey;
      TouchKeeps(p, u, x);
    } else {
      var m := p.byKey - {k};
      assert Unmap(p, u) == m;
      assert forall j :: j in m <==> j in p.byKey && j != k;
      assert k in p.byKey;
      UnmapKeeps(p, u, x, m);
    }
  }

  lemma UnmapKeeps(p: Pool, u: Uid, x: Upstream, m: map<PoolKey, Uid>)
    requires PoolOk(p) && u in p.ups && !p.ups[u].closed
    requires UpstreamOk(x, p.draining) && UpstreamGrows(p.ups[u], x) && x.closed
    requires forall j :: j in m <==> j in p.byKey && j != p.ups[u].key
    requires forall j :: j in m ==> m[j] == p.byKey[j]
    ensures PoolOk(p.(ups := p.ups[u := x], byKey := m)) && PoolGrows(p, p.(ups := p.ups[u := x], byKey := m))
  {
    var q := p.(ups := p.ups[u := x], byKey := m);
    assert MapSound(q) by {
      forall k | k in m ensures m[k] in q.ups && q.ups[m[k]].key == k && !q.ups[m[k]].closed {
        assert m[k] != u;
      }
    }
    assert MapComplete(q) by {
      forall v | v in q.ups && !q.ups[v].closed ensures q.ups[v].key in m && m[q.ups[v].key] == v {
        assert v != u && q.ups[v] == p.ups[v];
      }
    }
    assert DialsApart(q);
    assert forall v :: v in q.ups ==> UpstreamOk(q.ups[v], q.draining);
  }

  lemma PassKeeps(p: Pool, k: PoolKey, spare: Uid)
    requires PoolOk(p) && spare !in p.ups
    ensures PoolOk(Pass(p, k, spare).1) && PoolGrows(p, Pass(p, k, spare).1)
    ensures match Pass(p, k, spare).0
            case Refused => p.draining
            case Acquired(u) => u in p.ups && p.ups[u].key == k && p.ups[u].uc && !p.ups[u].closed
            case Wait(u) => u in p.ups && p.ups[u].key == k && p.ups[u].dialing
            case Dial(u) => u == spare && k !in p.byKey
  {
    match Pass(p, k, spare).0
    case Refused =>
    case Wait(u) =>
    case Acquired(u) => TouchKeeps(p, u, p.ups[u].(refs := p.ups[u].refs + 1, timer := NoTimer));
    case Dial(u) => DialKeeps(p, k, spare);
  }

  lemma DialKeeps(p: Pool, k: PoolKey, spare: Uid)
    requires PoolOk(p) && spare !in p.ups && Pass(p, k, spare).0.Dial?
    ensures PoolOk(Pass(p, k, spare).1) && PoolGrows(p, Pass(p, k, spare).1)
    ensures k !in p.byKey
  {
    var q := Pass(p, k, spare).1;
    assert k !in p.byKey;
    NewEntryKeeps(p, q, k, spare);
  }

  lemma NewEntrySound(p: Pool, q: Pool, k: PoolKey, spare: Uid)
    requires MapSound(p) && spare !in p.ups
    requires q == p.(ups := p.ups[spare := Dialer(k)], byKey := p.byKey[k := spare])
    ensures MapSound(q)
  {
  }

  lemma NewEntryKeeps(p: Pool, q: Pool, k: PoolKey, spare: Uid)
    requires PoolOk(p) && spare !in p.ups && k !in p.byKey && !p.draining
    requires q == p.(ups := p.ups[spare := Dialer(k)], byKey := p.byKey[k := spare])
    ensures PoolOk(q) && PoolGrows(p, q)
  {
    hide MapSound;
    NewEntrySound(p, q, k, spare);
    assert MapComplete(q) by {
      forall u | u in q.ups && !q.ups[u].closed ensures q.ups[u].key in q.byKey && q.byKey[q.ups[u].key] == u {
        assert u == spare || (u in p.ups && q.ups[u] == p.ups[u]);
      }
    }
    assert DialsApart(q) by {
      forall u | u in p.ups && p.ups[u].dialing ensures p.ups[u].key != k {
        assert UpstreamOk(p.ups[u], p.draining);
      }
    }
  }

  lemma DialFailsKeeps(p: Pool, u: Uid, canceled: bool)
    requires PoolOk(p) && u in p.ups && p.ups[u].dialing
    ensures PoolOk(DialFails(p, u, canceled)) && PoolGrows(p, DialFails(p, u, canceled))
  {
    RetireKeeps(p, u, p.ups[u].(dialing := false, dialErr := true, dialCanceled := canceled, closed := true));
  }

  lemma DialLandsKeeps(p: Pool, u: Uid)
    requires PoolOk(p) && u in p.ups && p.ups[u].dialing
    ensures PoolOk(DialLands(p, u).1) && PoolGrows(p, DialLands(p, u).1)
    ensures !DialLands(p, u).0 ==> p.draining
  {
    TouchKeeps(p, u, p.ups[u].(dialing := false, conn := Open, uc := !p.ups[u].closed));
  }

  lemma SignalKeeps(p: Pool, u: Uid)
    requires PoolOk(p) && u in p.ups && !p.ups[u].dialing
    ensures PoolOk(Signal(p, u)) && PoolGrows(p, Signal(p, u))
  {
    TouchKeeps(p, u, p.ups[u].(signalled := true));
  }

  lemma CloseConnKeeps(p: Pool, u: Uid)
    requires PoolOk(p) && u in p.ups && p.ups[u].conn == Open && p.ups[u].closed
    ensures PoolOk(CloseConn(p, u)) && PoolGrows(p, CloseConn(p, u))
  {
    TouchKeeps(p, u, p.ups[u].(conn := Closed));
  }

  lemma TryAcquireKeeps(p: Pool, u: Uid)
    requires PoolOk(p) && u in p.ups && p.ups[u].uc
    ensures PoolOk(TryAcquire(p, u).1) && PoolGrows(p, TryAcquire(p, u).1)
  {
    if p.ups[u].closed {
      assert TryAcquire(p, u).1 == p;
    } else {
      var x := p.ups[u].(refs := p.ups[u].refs + 1, timer := NoTimer);
      assert TryAcquire(p, u).1 == p.(ups := p.ups[u := x]);
      TouchKeeps(p, u, x);
    }
  }

  lemma ReleaseKeeps(p: Pool, u: Uid)
    requires PoolOk(p) && u in p.ups && p.ups[u].uc && p.ups[u].refs > 0
    ensures PoolOk(Release(p, u)) && PoolGrows(p, Release(p, u))
  {
    TouchKeeps(p, u, Release(p, u).ups[u]);
  }

  lemma FireKeeps(p: Pool, u: Uid)
    requires PoolOk(p) && u in p.ups && p.ups[u].timer == Armed
    ensures PoolOk(Fire(p, u)) && PoolGrows(p, Fire(p, u))
  {
    TouchKeeps(p, u, p.ups[u].(timer := Fired));
  }

  lemma IdleCloseKeeps(p: Pool, u: Uid)
    requires PoolOk(p) && u in p.ups && p.ups[u].uc
    ensures PoolOk(IdleClose(p, u).1) && PoolGrows(p, IdleClose(p, u).1)
  {
    RetireKeeps(p, u, p.ups[u].(closed := true));
  }

  lemma EvictKeeps(p: Pool, u: Uid)
    requires PoolOk(p) && u in p.ups && p.ups[u].uc
    ensures PoolOk(Evict(p, u).1) && PoolGrows(p, Evict(p, u).1)
  {
    RetireKeeps(p, u, p.ups[u].(closed := true, timer := NoTimer));
  }

  lemma BeginDrainKeeps(p: Pool)
    requires PoolOk(p)
    ensures PoolOk(BeginDrain(p)) && PoolGrows(p, BeginDrain(p))
  {
  }

  lemma DrainAllKeeps(p: Pool)
    requires PoolOk(p) && p.draining
    ensures PoolOk(DrainAll(p).1) && PoolGrows(p, DrainAll(p).1)
    ensures forall u :: u in p.ups ==> DrainAll(p).1.ups[u].closed
  {
  }
}
