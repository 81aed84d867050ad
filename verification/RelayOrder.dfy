/** A key's connections stand in the order they joined, in every run. */
module RelayOrder {
  import opened Common
  import opened Relay
  import opened RelayLog
  import opened RelaySteps

  ghost function ConnsOf(r: Registry, k: NodeKey): seq<Cid> {
    if k in r.byKey then r.byKey[k].conns else []
  }

  ghost function Members(s: seq<Cid>): set<Cid> {
    set c | c in s
  }

  /** Every connection that ever joined under k, in order. */
  ghost function Joined(fighters: bool, events: seq<Event>, k: NodeKey): seq<Cid> {
    if events == [] then []
    else
      var front, e := events[..|events| - 1], events[|events| - 1];
      Joined(fighters, front, k)
      + if e.Join? && e.k == k && Unused(Run(fighters, front).r, e.c, e.flow) then [e.c] else []
  }

  /** The members of s that are in live, order kept. */
  ghost function Kept(s: seq<Cid>, live: set<Cid>): seq<Cid> {
    if s == [] then []
    else Kept(s[..|s| - 1], live) + if s[|s| - 1] in live then [s[|s| - 1]] else []
  }

  lemma {:induction false} KeptDrops(s: seq<Cid>, live: set<Cid>, c: Cid)
    ensures Kept(s, live - {c}) == Without(Kept(s, live), c)
    decreases |s|
  {
    if s != [] {
      var front, d := s[..|s| - 1], s[|s| - 1];
      KeptDrops(front, live, c);
      WithoutAppend(Kept(front, live), c, d);
      assert Kept(front, live) + [] == Kept(front, live);
      assert Without(Kept(front, live), c) + [] == Without(Kept(front, live), c);
    }
  }

  lemma {:induction false} KeptSame(s: seq<Cid>, a: set<Cid>, b: set<Cid>)
    requires forall c :: c in s ==> (c in a <==> c in b)
    ensures Kept(s, a) == Kept(s, b)
    decreases |s|
  {
    if s != [] {
      assert s == s[..|s| - 1] + [s[|s| - 1]];
      KeptSame(s[..|s| - 1], a, b);
    }
  }

  lemma {:induction false} KeptNone(s: seq<Cid>)
    ensures Kept(s, {}) == []
    decreases |s|
  {
    if s != [] { KeptNone(s[..|s| - 1]); }
  }

  /** What each event does to the connections of one key. */
  lemma ConnsAfter(w: World, e: Event, k: NodeKey)
    requires Inv(w)
    ensures ConnsOf(Step(w, e).r, k) ==
      if e.Join? && e.k == k && Unused(w.r, e.c, e.flow) then ConnsOf(w.r, k) + [e.c]
      else if e.Leave? && e.c in w.r.clients && w.r.clients[e.c].key == k then Without(ConnsOf(w.r, k), e.c)
      else if e.Drop? then [] else ConnsOf(w.r, k)
  {
    hide Inv, NoteActivity, Remaining, Reenable, Marked, LeaveLog, Contends;
    if e.Send? && Listed(w.r, e.src) { NoteHistory(w.r, e.src); }
    if e.Leave? && e.c in w.r.clients { LeaveConns(w.r, e.c); }
  }

  lemma LeaveConns(r: Registry, c: Cid)
    requires c in r.clients
    ensures var k := r.clients[c].key;
      forall j :: ConnsOf(Remove(r, c).1, j) == if j == k then Without(ConnsOf(r, k), c) else ConnsOf(r, j)
  {
    hide Reenable;
  }

  lemma {:induction false} JoinedKnown(fighters: bool, events: seq<Event>, k: NodeKey)
    ensures forall c :: c in Joined(fighters, events, k) ==> c in Run(fighters, events).r.clients
    decreases |events|
  {
    hide Step;
    if events != [] {
      var n := |events| - 1;
      JoinedKnown(fighters, events[..n], k);
      ClientsStay(Run(fighters, events[..n]), events[n]);
    }
  }

  lemma ClientsStay(w: World, e: Event)
    ensures w.r.clients.Keys <= Step(w, e).r.clients.Keys
    ensures e.Join? && Unused(w.r, e.c, e.flow) ==> e.c in Step(w, e).r.clients
  {
    hide Remaining, LeaveLog, Without, Contends, Receiver, Marked, NoteActivity;
    if e.Send? && Listed(w.r, e.src) { NoteMarks(w.r, e.src); }
  }

  /** In every run the connections of a key are those that joined under it and have not gone, oldest first. */
  lemma {:induction false} InJoinOrder(fighters: bool, events: seq<Event>, k: NodeKey)
    ensures var conns := ConnsOf(Run(fighters, events).r, k);
      conns == Kept(Joined(fighters, events, k), Members(conns))
    decreases |events|
  {
    hide Step, Inv;
    if events != [] {
      var n := |events| - 1;
      var w, e := Run(fighters, events[..n]), events[n];
      InJoinOrder(fighters, events[..n], k);
      RunOk(fighters, events[..n]);
      ConnsAfter(w, e, k);
      JoinedKnown(fighters, events[..n], k);
      OrderMoves(w.r, ConnsOf(w.r, k), Joined(fighters, events[..n], k), e, k);
    }
  }

  lemma OrderMoves(r: Registry, conns: seq<Cid>, joined: seq<Cid>, e: Event, k: NodeKey)
    requires conns == Kept(joined, Members(conns)) && forall c :: c in joined ==> c in r.clients
    ensures e.Join? && Unused(r, e.c, e.flow) ==> conns + [e.c] == Kept(joined + [e.c], Members(conns + [e.c]))
    ensures e.Leave? ==> Without(conns, e.c) == Kept(joined, Members(Without(conns, e.c)))
    ensures Kept(joined, Members([])) == []
    ensures joined + [] == joined
  {
    var live := Members(conns);
    KeptNone(joined);
    assert Members([]) == {};
    if e.Join? && Unused(r, e.c, e.flow) {
      assert (joined + [e.c])[..|joined|] == joined;
      assert Members(conns + [e.c]) == live + {e.c};
      KeptSame(joined, live, live + {e.c});
    }
    if e.Leave? {
      KeptDrops(joined, live, e.c);
      assert Members(Without(conns, e.c)) == live - {e.c};
    }
  }
}
