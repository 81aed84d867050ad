/**
 The relay over whole runs, beside two things the code does not keep: the unbounded log of recorded
 sends of each key, and the announcements that were decided but not yet made.
 */
module RelayLog {
  import opened Common
  import opened Relay

  // ---- the send history as a view of the unbounded log -------------------------------

  /** The log restricted to live connections, keeping each one's last occurrence. */
  ghost function Project(log: seq<Cid>, live: set<Cid>): (h: seq<Cid>)
    ensures forall x :: x in h <==> x in log && x in live
  {
    if log == [] then []
    else if log[0] in live && log[0] !in log[1..] then [log[0]] + Project(log[1..], live)
    else Project(log[1..], live)
  }

  lemma {:induction false} ProjectOnce(log: seq<Cid>, live: set<Cid>)
    ensures NoDuplicates(Project(log, live))
  {
    if log != [] { ProjectOnce(log[1..], live); }
  }

  /** Recording one more send of a live connection moves it to the end. */
  lemma {:induction false} ProjectAppend(log: seq<Cid>, live: set<Cid>, c: Cid)
    requires c in live
    ensures Project(log + [c], live) == Without(Project(log, live), c) + [c]
  {
    if log == [] {
      assert log + [c] == [c];
    } else {
      var rest := log[1..];
      assert (log + [c])[1..] == rest + [c];
      ProjectAppend(rest, live, c);
    }
  }

  /** A departing connection is trimmed. */
  lemma {:induction false} ProjectLeave(log: seq<Cid>, live: set<Cid>, c: Cid)
    ensures Project(log, live - {c}) == Without(Project(log, live), c)
  {
    if log != [] { ProjectLeave(log[1..], live, c); }
  }

  /** A connection that never sent changes nothing when it joins. */
  lemma {:induction false} ProjectJoin(log: seq<Cid>, live: set<Cid>, c: Cid)
    requires c !in log
    ensures Project(log, live + {c}) == Project(log, live)
  {
    if log != [] { ProjectJoin(log[1..], live, c); }
  }

  lemma {:induction false} ProjectSkip(log: seq<Cid>, live: set<Cid>, c: Cid)
    requires c !in live
    ensures Project(log + [c], live) == Project(log, live)
  {
    if log == [] {
      assert log + [c] == [c];
    } else {
      assert (log + [c])[1..] == log[1..] + [c];
      ProjectSkip(log[1..], live, c);
    }
  }

  /** The live connection that spoke last, read off the whole log. */
  ghost function LastLive(log: seq<Cid>, live: set<Cid>): Option<Cid> {
    if log == [] then None
    else if log[|log| - 1] in live then Some(log[|log| - 1])
    else LastLive(log[..|log| - 1], live)
  }

  lemma {:induction false} ProjectEnd(log: seq<Cid>, live: set<Cid>)
    ensures var h := Project(log, live);
      LastLive(log, live) == if h == [] then None else Some(h[|h| - 1])
    decreases |log|
  {
    if log != [] {
      var front, c := log[..|log| - 1], log[|log| - 1];
      assert log == front + [c];
      ProjectEnd(front, live);
      if c in live { ProjectAppend(front, live, c); } else { ProjectSkip(front, live, c); }
    }
  }

  lemma LastEnabledAppend(clients: map<Cid, Client>, s: seq<Cid>, d: Cid)
    ensures LastEnabled(clients, s + [d]) == if Enabled(clients, d) then Some(d) else LastEnabled(clients, s)
  {
    assert (s + [d])[..|s|] == s;
  }

  lemma {:induction false} WithoutDisabled(clients: map<Cid, Client>, s: seq<Cid>, c: Cid)
    requires !Enabled(clients, c)
    ensures LastEnabled(clients, Without(s, c)) == LastEnabled(clients, s)
    decreases |s|
  {
    if s != [] {
      var front, d := s[..|s| - 1], s[|s| - 1];
      assert s == front + [d];
      WithoutDisabled(clients, front, c);
      WithoutAppend(front, c, d);
      LastEnabledAppend(clients, front, d);
      LastEnabledAppend(clients, Without(front, c), d);
      assert Without(front, c) + [] == Without(front, c);
    }
  }

  lemma {:induction false} WithoutAppend(s: seq<Cid>, c: Cid, d: Cid)
    ensures Without(s + [d], c) == Without(s, c) + if d == c then [] else [d]
  {
    if s == [] {
      assert s + [d] == [d];
    } else {
      assert (s + [d])[1..] == s[1..] + [d];
      WithoutAppend(s[1..], c, d);
    }
  }

  /** The last enabled entry of the bounded history is the latest enabled live sender of the whole log. */
  lemma {:induction false} LatestEnabled(clients: map<Cid, Client>, log: seq<Cid>, live: set<Cid>)
    ensures LastEnabled(clients, Project(log, live)) == LastLive(log, set c | c in live && Enabled(clients, c))
    decreases |log|
  {
    if log != [] {
      var front, c := log[..|log| - 1], log[|log| - 1];
      assert log == front + [c];
      LatestEnabled(clients, front, live);
      if c in live {
        ProjectAppend(front, live, c);
        var h := Project(log, live);
        assert h[..|h| - 1] == Without(Project(front, live), c);
        if !Enabled(clients, c) { WithoutDisabled(clients, Project(front, live), c); }
      } else {
        ProjectSkip(front, live, c);
      }
    }
  }

  // ---- runs ---------------------------------------------------------------------------

  /** log: every recorded send of a key since its set last had one member. pending: keys owed an announcement. */
  datatype World = World(r: Registry, log: map<NodeKey, seq<Cid>>, pending: multiset<NodeKey>)

  datatype Event =
    | Join(c: Cid, k: NodeKey, flow: FlowId)
    | Leave(c: Cid)
    | Tell(k: NodeKey)
    | Send(src: Cid, payload: Bytes, disco: bool)
    | Drop

  ghost function Live(r: Registry, k: NodeKey): set<Cid> {
    if k in r.byKey then set c | c in r.byKey[k].conns else {}
  }

  /** Every join brings a connection and a tunnel flow id never seen before. */
  ghost predicate Unused(r: Registry, c: Cid, flow: FlowId) {
    c !in r.clients && forall d :: d in r.clients ==> r.clients[d].flow != flow
  }

  /** An enabled connection that is not the only one of its key: its sends count. */
  ghost predicate Contends(r: Registry, src: Cid) {
    Enabled(r.clients, src) && exists d :: d in Live(r, r.clients[src].key) && d != src
  }

  ghost function LeaveLog(w: World, k: NodeKey, r': Registry): map<NodeKey, seq<Cid>> {
    if k !in r'.byKey then w.log - {k}
    else if |r'.byKey[k].conns| == 1 then w.log[k := []]
    else w.log
  }

  ghost function Step(w: World, e: Event): World {
    match e
    case Join(c, k, flow) =>
      if !Unused(w.r, c, flow) then w
      else w.(r := Register(w.r, c, k, flow), log := if k in w.r.byKey then w.log else w.log[k := []])
    case Leave(c) =>
      if c !in w.r.clients then w
      else
        var (gone, r') := Remove(w.r, c);
        var k := w.r.clients[c].key;
        w.(r := r', log := LeaveLog(w, k, r'), pending := if gone then w.pending + multiset{k} else w.pending)
    case Tell(k) =>
      if k !in w.pending then w
      else w.(r := Announce(w.r, k).1, pending := w.pending - multiset{k})
    case Send(src, payload, disco) =>
      if !Listed(w.r, src) then w
      else
        var k := w.r.clients[src].key;
        w.(r := Route(w.r, src, payload, disco).1,
           log := if Contends(w.r, src) && |payload| >= KEY_LEN && k in w.log
                  then w.log[k := w.log[k] + [src]] else w.log)
    case Drop =>
      w.(r := CloseAll(w.r).1, log := map[])
  }

  ghost function Run(fighters: bool, events: seq<Event>): World
    decreases |events|
  {
    if events == [] then World(Registry(fighters, map[], map[], map[]), map[], multiset{})
    else Step(Run(fighters, events[..|events| - 1]), events[|events| - 1])
  }

  // ---- what every run keeps -----------------------------------------------------------

  ghost predicate KeyLogOk(r: Registry, k: NodeKey, log: seq<Cid>) {
    k in r.byKey && r.byKey[k].history == Project(log, Live(r, k)) && forall c :: c in log ==> c in r.clients
  }

  /** The bounded history of each key is the projection of its unbounded log. */
  ghost predicate LogOk(w: World) {
    w.log.Keys == w.r.byKey.Keys && forall k :: k in w.log ==> KeyLogOk(w.r, k, w.log[k])
  }

  /** A live mark for a key means the key is registered or its announcement is on its way. */
  ghost predicate MarksOk(w: World) {
    forall c, k :: Listed(w.r, c) && k in w.r.clients[c].received ==> k in w.r.byKey || k in w.pending
  }

  ghost predicate Inv(w: World) {
    RegistryOk(w.r) && LogOk(w) && MarksOk(w)
  }
}
