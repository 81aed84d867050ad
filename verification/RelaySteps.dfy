/** Every relay step keeps the registry's shape, the log's projection and the mark protocol. */
module RelaySteps {
  import opened Common
  import opened Relay
  import opened RelayLog

  // ---- sequences -------------------------------------------------------------------

  lemma {:induction false} WithoutOnce(s: seq<Cid>, c: Cid)
    requires NoDuplicates(s)
    ensures NoDuplicates(Without(s, c))
    ensures c !in s ==> Without(s, c) == s
    ensures c in s ==> |Without(s, c)| == |s| - 1
  {
    if s != [] {
      assert forall i, j :: 0 <= i < j < |s[1..]| ==> s[1..][i] != s[1..][j];
      assert s[0] !in s[1..];
      WithoutOnce(s[1..], c);
    }
  }

  lemma {:induction false} LastEnabledIs(clients: map<Cid, Client>, s: seq<Cid>)
    ensures match LastEnabled(clients, s)
            case None => forall c :: c in s ==> !Enabled(clients, c)
            case Some(c) => c in s && Enabled(clients, c)
  {
    if s != [] {
      assert s == s[..|s| - 1] + [s[|s| - 1]];
      LastEnabledIs(clients, s[..|s| - 1]);
    }
  }

  // ---- sets of other keys are left alone ---------------------------------------------

  ghost predicate SameClients(r: Registry, r': Registry, conns: seq<Cid>) {
    forall c :: c in conns && c in r.clients ==>
      c in r'.clients && r'.clients[c].key == r.clients[c].key && r'.clients[c].disabled == r.clients[c].disabled
  }

  lemma SetStays(r: Registry, r': Registry, k: NodeKey, cs: ClientSet)
    requires SetOk(r, k, cs) && r'.fighters == r.fighters && SameClients(r, r', cs.conns)
    ensures SetOk(r', k, cs)
  {
  }

  /** Only the set of key k changed, and clients outside it kept key, flow and state. */
  lemma RegistryMoves(r: Registry, r': Registry, k: NodeKey)
    requires RegistryOk(r) && r'.fighters == r.fighters
    requires r'.byKey.Keys - {k} == r.byKey.Keys - {k}
    requires forall j :: j in r.byKey && j != k ==>
        j in r'.byKey && r'.byKey[j] == r.byKey[j] && SameClients(r, r', r.byKey[j].conns)
    requires k in r'.byKey ==> SetOk(r', k, r'.byKey[k])
    requires Agree(r') && FlowsDistinct(r')
    ensures RegistryOk(r')
  {
    forall j | j in r'.byKey ensures SetOk(r', j, r'.byKey[j]) {
      if j != k {
        assert j in r'.byKey.Keys - {k};
        assert j in r.byKey;
        SetStays(r, r', j, r.byKey[j]);
      }
    }
  }

  // ---- join ------------------------------------------------------------------------------

  lemma RegisterKeeps(r: Registry, c: Cid, k: NodeKey, flow: FlowId)
    requires RegistryOk(r) && Unused(r, c, flow)
    ensures RegistryOk(Register(r, c, k, flow))
  {
    var r' := Register(r, c, k, flow);
    assert SetOk(r', k, r'.byKey[k]) by { JoinedOk(r, c, k, flow); }
    assert Agree(r') by { JoinAgrees(r, c, k, flow); }
    forall j | j in r.byKey && j != k ensures SameClients(r, r', r.byKey[j].conns) {}
    RegistryMoves(r, r', k);
  }

  lemma JoinedOk(r: Registry, c: Cid, k: NodeKey, flow: FlowId)
    requires RegistryOk(r) && Unused(r, c, flow)
    ensures SetOk(Register(r, c, k, flow), k, Register(r, c, k, flow).byKey[k])
  {
    if k in r.byKey { assert SetOk(r, k, r.byKey[k]); }
  }

  lemma JoinAgrees(r: Registry, c: Cid, k: NodeKey, flow: FlowId)
    requires RegistryOk(r) && Unused(r, c, flow)
    ensures Agree(Register(r, c, k, flow)) && FlowsDistinct(Register(r, c, k, flow))
  {
    hide SetOk, Listed, Agree;
    var r' := Register(r, c, k, flow);
    forall d ensures Listed(r', d) <==> Listed(r, d) || d == c { JoinListed(r, c, k, flow, d); }
    AgreeWith(r, r', c, flow);
  }

  lemma AgreeWith(r: Registry, r': Registry, c: Cid, flow: FlowId)
    requires Agree(r) && Unused(r, c, flow)
    requires r'.byTunnel == r.byTunnel[flow := c] && c in r'.clients && r'.clients[c].flow == flow
    requires forall d :: d in r.clients ==> d in r'.clients && r'.clients[d] == r.clients[d]
    requires forall d :: Listed(r', d) <==> Listed(r, d) || d == c
    ensures Agree(r')
  {
    forall d | Listed(r', d)
      ensures d in r'.clients && r'.clients[d].flow in r'.byTunnel && r'.byTunnel[r'.clients[d].flow] == d
    {
      if d != c { assert Listed(r, d); }
    }
    forall f | f in r'.byTunnel ensures Listed(r', r'.byTunnel[f]) && r'.clients[r'.byTunnel[f]].flow == f {
      if f != flow { assert Listed(r, r.byTunnel[f]); }
    }
  }

  lemma JoinListed(r: Registry, c: Cid, k: NodeKey, flow: FlowId, d: Cid)
    requires c !in r.clients
    ensures Listed(Register(r, c, k, flow), d) <==> Listed(r, d) || d == c
  {
  }

  // ---- leave ------------------------------------------------------------------------------

  lemma RemoveKeeps(r: Registry, c: Cid)
    requires RegistryOk(r) && c in r.clients
    ensures RegistryOk(Remove(r, c).1)
  {
    hide SetOk, Agree, FlowsDistinct, Remaining, Reenable;
    var r', k := Remove(r, c).1, r.clients[c].key;
    LeaveAgrees(r, c);
    if k in r.byKey && Without(r.byKey[k].conns, c) != [] { LeftOk(r, c, k, r.byKey[k]); }
    forall j | j in r.byKey && j != k ensures SameClients(r, r', r.byKey[j].conns) {
      LeaveSame(r, c, j);
    }
    RegistryMoves(r, r', k);
  }

  lemma LeftOk(r: Registry, c: Cid, k: NodeKey, cs: ClientSet)
    requires SetOk(r, k, cs) && Without(cs.conns, c) != []
    ensures SetOk(r.(clients := Reenable(r.clients, Without(cs.conns, c))), k, Remaining(r.clients, cs, c))
  {
    WithoutOnce(cs.conns, c);
    LastEnabledIs(r.clients, Without(cs.conns, c));
    LastEnabledIs(r.clients, Without(cs.history, c));
  }

  lemma LeaveSame(r: Registry, c: Cid, j: NodeKey)
    requires RegistryOk(r) && c in r.clients && j in r.byKey && j != r.clients[c].key
    ensures SameClients(r, Remove(r, c).1, r.byKey[j].conns)
  {
    hide Remaining;
    assert SetOk(r, j, r.byKey[j]);
    if r.clients[c].key in r.byKey { assert SetOk(r, r.clients[c].key, r.byKey[r.clients[c].key]); }
  }

  lemma ReenableKeeps(clients: map<Cid, Client>, conns: seq<Cid>)
    ensures Reenable(clients, conns).Keys == clients.Keys
    ensures forall d :: d in clients ==>
        Reenable(clients, conns)[d] == clients[d].(disabled := Reenable(clients, conns)[d].disabled)
  {
  }

  lemma LeaveListed(r: Registry, c: Cid, d: Cid)
    requires c in r.clients
    ensures Listed(Remove(r, c).1, d) <==> Listed(r, d) && d != c
  {
    hide Reenable;
    if r.clients[c].key in r.byKey { ReenableKeeps(r.clients, Without(r.byKey[r.clients[c].key].conns, c)); }
  }

  lemma LeaveAgrees(r: Registry, c: Cid)
    requires RegistryOk(r) && c in r.clients
    ensures Agree(Remove(r, c).1) && FlowsDistinct(Remove(r, c).1)
  {
    hide SetOk, Listed, Remaining, Reenable, Agree, FlowsDistinct;
    var r' := Remove(r, c).1;
    forall d ensures Listed(r', d) <==> Listed(r, d) && d != c { LeaveListed(r, c, d); }
    if r.clients[c].key in r.byKey { ReenableKeeps(r.clients, Without(r.byKey[r.clients[c].key].conns, c)); }
    AgreeWithout(r, r', c);
  }

  lemma AgreeWithout(r: Registry, r': Registry, c: Cid)
    requires Agree(r) && FlowsDistinct(r) && c in r.clients
    requires r'.byTunnel == r.byTunnel - {r.clients[c].flow} && r'.clients.Keys == r.clients.Keys
    requires forall d :: d in r.clients ==> r'.clients[d].flow == r.clients[d].flow
    requires forall d :: Listed(r', d) <==> Listed(r, d) && d != c
    ensures Agree(r') && FlowsDistinct(r')
  {
    forall d | Listed(r', d)
      ensures d in r'.clients && r'.clients[d].flow in r'.byTunnel && r'.byTunnel[r'.clients[d].flow] == d
    {
      assert Listed(r, d);
    }
    forall f | f in r'.byTunnel ensures Listed(r', r'.byTunnel[f]) && r'.clients[r'.byTunnel[f]].flow == f {
      assert Listed(r, r.byTunnel[f]) && r.byTunnel[f] != c;
    }
  }

  // ---- send ---------------------------------------------------------------------------------

  /** When clients keep key and flow and sets keep their members, both registries keep agreeing. */
  lemma AgreeSame(r: Registry, r': Registry)
    requires Agree(r) && FlowsDistinct(r) && r'.byTunnel == r.byTunnel && r'.clients.Keys == r.clients.Keys
    requires r'.byKey.Keys == r.byKey.Keys
    requires forall d :: d in r.clients ==>
        r'.clients[d].flow == r.clients[d].flow && r'.clients[d].key == r.clients[d].key
    requires forall k :: k in r.byKey ==> r'.byKey[k].conns == r.byKey[k].conns
    ensures Agree(r') && FlowsDistinct(r') && forall d :: Listed(r', d) <==> Listed(r, d)
  {
    assert forall d :: Listed(r', d) <==> Listed(r, d);
  }

  lemma NoteKeeps(r: Registry, src: Cid)
    requires RegistryOk(r) && Listed(r, src)
    ensures RegistryOk(NoteActivity(r, src))
    ensures forall d :: Listed(NoteActivity(r, src), d) <==> Listed(r, d)
  {
    if Records(r, src) { RecordKeeps(r, src, r.clients[src].key); }
  }

  lemma RecordKeeps(r: Registry, src: Cid, k: NodeKey)
    requires RegistryOk(r) && Records(r, src) && k == r.clients[src].key && src in r.byKey[k].conns
    ensures RegistryOk(NoteActivity(r, src))
    ensures forall d :: Listed(NoteActivity(r, src), d) <==> Listed(r, d)
  {
    hide SetOk, Agree, FlowsDistinct, Listed, NoteActivity;
    var r' := NoteActivity(r, src);
    NoteFrame(r, src);
    AgreeSame(r, r');
    forall j | j in r.byKey && j != k ensures SameClients(r, r', r.byKey[j].conns) { NoteSame(r, src, j); }
    NotedOk(r, src, k, r.byKey[k]);
    RegistryMoves(r, r', k);
  }

  lemma NoteFrame(r: Registry, src: Cid)
    requires Records(r, src)
    ensures var (r', k) := (NoteActivity(r, src), r.clients[src].key);
      && r'.fighters == r.fighters && r'.byTunnel == r.byTunnel && r'.clients.Keys == r.clients.Keys
      && r'.byKey.Keys == r.byKey.Keys
      && (forall j :: j in r.byKey && j != k ==> r'.byKey[j] == r.byKey[j])
      && r'.byKey[k].conns == r.byKey[k].conns
      && (forall d :: d in r.clients ==>
            r'.clients[d] == r.clients[d].(disabled := r'.clients[d].disabled)
            && (d !in r.byKey[k].conns ==> r'.clients[d] == r.clients[d]))
  {
  }

  lemma NoteSame(r: Registry, src: Cid, j: NodeKey)
    requires RegistryOk(r) && Records(r, src) && j in r.byKey && j != r.clients[src].key
    ensures SameClients(r, NoteActivity(r, src), r.byKey[j].conns)
  {
    assert SetOk(r, j, r.byKey[j]);
    assert SetOk(r, r.clients[src].key, r.byKey[r.clients[src].key]);
    NoteFrame(r, src);
  }

  lemma NotedOk(r: Registry, src: Cid, k: NodeKey, cs: ClientSet)
    requires SetOk(r, k, cs) && Records(r, src) && k == r.clients[src].key && cs == r.byKey[k]
    requires src in cs.conns
    ensures SetOk(NoteActivity(r, src), k, NoteActivity(r, src).byKey[k])
  {
    var r' := NoteActivity(r, src);
    WithoutOnce(cs.conns, src);
  }

  lemma MarkKeeps(r: Registry, c: Cid, k: NodeKey)
    requires RegistryOk(r)
    ensures RegistryOk(Mark(r, c, k)) && forall d :: Listed(Mark(r, c, k), d) <==> Listed(r, d)
  {
    hide SetOk, Agree, FlowsDistinct, Listed;
    var r' := Mark(r, c, k);
    AgreeSame(r, r');
    forall j | j in r'.byKey ensures SetOk(r', j, r'.byKey[j]) { SetStays(r, r', j, r.byKey[j]); }
  }

  lemma AnnounceKeeps(r: Registry, k: NodeKey)
    requires RegistryOk(r)
    ensures RegistryOk(Announce(r, k).1) && forall d :: Listed(Announce(r, k).1, d) <==> Listed(r, d)
  {
    hide SetOk, Agree, FlowsDistinct, Listed;
    var r' := Announce(r, k).1;
    AgreeSame(r, r');
    forall j | j in r'.byKey ensures SetOk(r', j, r'.byKey[j]) { SetStays(r, r', j, r.byKey[j]); }
  }

  lemma RouteKeeps(r: Registry, src: Cid, payload: Bytes, disco: bool)
    requires RegistryOk(r) && Listed(r, src)
    ensures RegistryOk(Route(r, src, payload, disco).1)
    ensures forall d :: Listed(Route(r, src, payload, disco).1, d) <==> Listed(r, d)
  {
    hide RegistryOk, Listed, NoteActivity;
    assert src in r.clients by { ListedKnown(r, src); }
    if |payload| >= KEY_LEN {
      NoteKeeps(r, src);
      var r1 := NoteActivity(r, src);
      var peer := Receiver(r1, payload[..KEY_LEN]);
      if peer.Some? { MarkKeeps(r1, peer.value, r.clients[src].key); }
    }
  }

  lemma ListedKnown(r: Registry, c: Cid)
    requires Listed(r, c)
    ensures c in r.clients && r.clients[c].key in r.byKey && c in r.byKey[r.clients[c].key].conns
  {
  }

  // ---- the log ---------------------------------------------------------------------------------

  /** A key whose set kept its members and history keeps its log. */
  lemma LogStays(r: Registry, r': Registry, k: NodeKey, log: seq<Cid>)
    requires KeyLogOk(r, k, log) && r.clients.Keys <= r'.clients.Keys
    requires k in r'.byKey && r'.byKey[k].conns == r.byKey[k].conns && r'.byKey[k].history == r.byKey[k].history
    ensures KeyLogOk(r', k, log)
  {
  }

  lemma JoinLog(w: World, c: Cid, k: NodeKey, flow: FlowId)
    requires Inv(w) && Unused(w.r, c, flow)
    ensures LogOk(Step(w, Join(c, k, flow)))
  {
    hide RegistryOk, MarksOk, KeyLogOk;
    var w' := Step(w, Join(c, k, flow));
    forall j | j in w'.log ensures KeyLogOk(w'.r, j, w'.log[j]) {
      if j != k { LogStays(w.r, w'.r, j, w.log[j]); } else { JoinKeyLog(w, c, k, flow); }
    }
  }

  lemma JoinKeyLog(w: World, c: Cid, k: NodeKey, flow: FlowId)
    requires LogOk(w) && Unused(w.r, c, flow)
    ensures var w' := Step(w, Join(c, k, flow)); KeyLogOk(w'.r, k, w'.log[k])
  {
    if k in w.r.byKey {
      assert KeyLogOk(w.r, k, w.log[k]);
      assert Live(Register(w.r, c, k, flow), k) == Live(w.r, k) + {c};
      ProjectJoin(w.log[k], Live(w.r, k), c);
    }
  }

  lemma LeaveKeepsLog(w: World, c: Cid)
    requires Inv(w) && c in w.r.clients
    ensures LogOk(Step(w, Leave(c)))
  {
    hide RegistryOk, MarksOk, KeyLogOk, Reenable, Remaining;
    var w', k := Step(w, Leave(c)), w.r.clients[c].key;
    if k in w.r.byKey { ReenableKeeps(w.r.clients, Without(w.r.byKey[k].conns, c)); }
    forall j | j in w'.log ensures KeyLogOk(w'.r, j, w'.log[j]) {
      if j != k { LogStays(w.r, w'.r, j, w.log[j]); } else { LeaveKeyLog(w, c); }
    }
  }

  lemma LeaveKeyLog(w: World, c: Cid)
    requires LogOk(w) && c in w.r.clients && w.r.clients[c].key in w.r.byKey
    ensures var (w', k) := (Step(w, Leave(c)), w.r.clients[c].key);
      w.r.clients[c].key in w'.log ==> KeyLogOk(w'.r, k, w'.log[k])
  {
    hide Reenable, Promote;
    var w', k := Step(w, Leave(c)), w.r.clients[c].key;
    var cs := w.r.byKey[k];
    assert KeyLogOk(w.r, k, w.log[k]);
    ReenableKeeps(w.r.clients, Without(cs.conns, c));
    ProjectLeave(w.log[k], Live(w.r, k), c);
    if k in w'.r.byKey { assert Live(w'.r, k) == Live(w.r, k) - {c}; }
  }

  /** The sends noted are those that count. */
  lemma RecordsIff(r: Registry, src: Cid)
    requires RegistryOk(r) && Listed(r, src)
    ensures Records(r, src) <==> Contends(r, src)
  {
    hide Agree, FlowsDistinct;
    var k := r.clients[src].key;
    var conns := r.byKey[k].conns;
    assert SetOk(r, k, r.byKey[k]);
    if |conns| >= 2 { assert conns[0] in Live(r, k) && conns[1] in Live(r, k); }
  }

  lemma SendLog(w: World, src: Cid, payload: Bytes, disco: bool)
    requires Inv(w) && Listed(w.r, src)
    ensures LogOk(Step(w, Send(src, payload, disco)))
  {
    hide RegistryOk, MarksOk, KeyLogOk, NoteActivity, Records, Contends;
    var w' := Step(w, Send(src, payload, disco));
    var k := w.r.clients[src].key;
    if |payload| >= KEY_LEN {
      RecordsIff(w.r, src);
      NoteHistory(w.r, src);
      assert w'.r.byKey == NoteActivity(w.r, src).byKey && w'.r.clients.Keys == w.r.clients.Keys;
      forall j | j in w'.log ensures KeyLogOk(w'.r, j, w'.log[j]) {
        if j == k && Records(w.r, src) {
          SendKeyLog(w.r, w'.r, k, w.log[k], src);
        } else {
          LogStays(w.r, w'.r, j, w.log[j]);
        }
      }
    }
  }

  lemma SendKeyLog(r: Registry, r': Registry, k: NodeKey, log: seq<Cid>, src: Cid)
    requires KeyLogOk(r, k, log) && src in r.byKey[k].conns && src in r.clients && r'.clients.Keys == r.clients.Keys
    requires k in r'.byKey && r'.byKey[k].conns == r.byKey[k].conns
    requires r'.byKey[k].history == Moved(r.byKey[k].history, src)
    ensures KeyLogOk(r', k, log + [src])
  {
    assert Live(r', k) == Live(r, k);
    MoveToEnd(log, Live(r, k), src);
  }

  lemma NoteHistory(r: Registry, src: Cid)
    requires src in r.clients
    ensures var r' := NoteActivity(r, src);
      && r'.byKey.Keys == r.byKey.Keys && r'.clients.Keys == r.clients.Keys
      && (forall j :: j in r.byKey ==> r'.byKey[j].conns == r.byKey[j].conns)
      && (forall j :: j in r.byKey ==>
            var h := r.byKey[j].history;
            r'.byKey[j].history == if Records(r, src) && j == r.clients[src].key then Moved(h, src) else h)
  {
  }

  /** What recording a sender does to the bounded history. */
  function Moved(h: seq<Cid>, c: Cid): seq<Cid> {
    if |h| > 0 && h[|h| - 1] == c then h else Without(h, c) + [c]
  }

  lemma MoveToEnd(log: seq<Cid>, live: set<Cid>, c: Cid)
    requires c in live
    ensures Project(log + [c], live) == Moved(Project(log, live), c)
  {
    var h := Project(log, live);
    ProjectAppend(log, live, c);
    if |h| > 0 && h[|h| - 1] == c {
      ProjectOnce(log, live);
      var front := h[..|h| - 1];
      assert h == front + [c];
      WithoutAppend(front, c, c);
      assert Without(h, c) == Without(front, c);
      assert forall i :: 0 <= i < |front| ==> front[i] == h[i] && h[i] != h[|h| - 1];
      WithoutNone(front, c);
    }
  }

  lemma {:induction false} WithoutNone(s: seq<Cid>, c: Cid)
    requires c !in s
    ensures Without(s, c) == s
  {
    if s != [] { WithoutNone(s[1..], c); }
  }

  // ---- marks ---------------------------------------------------------------------------------------

  lemma JoinMarks(w: World, c: Cid, k: NodeKey, flow: FlowId)
    requires Inv(w) && Unused(w.r, c, flow)
    ensures MarksOk(Step(w, Join(c, k, flow)))
  {
    hide SetOk, Agree, LogOk;
    var w' := Step(w, Join(c, k, flow));
    forall d, j | Listed(w'.r, d) && j in w'.r.clients[d].received ensures j in w'.r.byKey || j in w'.pending {
      JoinListed(w.r, c, k, flow, d);
    }
  }

  lemma LeaveMarks(w: World, c: Cid)
    requires Inv(w) && c in w.r.clients
    ensures MarksOk(Step(w, Leave(c)))
  {
    hide SetOk, Agree, LogOk, Remaining, Reenable;
    var w', k := Step(w, Leave(c)), w.r.clients[c].key;
    if k in w.r.byKey { ReenableKeeps(w.r.clients, Without(w.r.byKey[k].conns, c)); }
    forall d, j | Listed(w'.r, d) && j in w'.r.clients[d].received ensures j in w'.r.byKey || j in w'.pending {
      LeaveListed(w.r, c, d);
      assert j in w.r.clients[d].received;
    }
  }

  lemma TellMarks(w: World, k: NodeKey)
    requires Inv(w) && k in w.pending
    ensures MarksOk(Step(w, Tell(k)))
  {
    hide SetOk, LogOk;
    var w' := Step(w, Tell(k));
    AnnounceKeeps(w.r, k);
    forall d, j | Listed(w'.r, d) && j in w'.r.clients[d].received ensures j in w'.r.byKey || j in w'.pending {
      assert Listed(w.r, d) && w.r.byTunnel[w.r.clients[d].flow] == d;
      assert j in w.r.clients[d].received;
      if j == k { assert d in Marked(w.r, k); }
    }
  }

  lemma SendMarks(w: World, src: Cid, payload: Bytes, disco: bool)
    requires Inv(w) && Listed(w.r, src)
    ensures MarksOk(Step(w, Send(src, payload, disco)))
  {
    hide SetOk, LogOk, Agree, NoteActivity, Records;
    var w' := Step(w, Send(src, payload, disco));
    RouteKeeps(w.r, src, payload, disco);
    if |payload| >= KEY_LEN { NoteMarks(w.r, src); }
    forall d, j | Listed(w'.r, d) && j in w'.r.clients[d].received ensures j in w'.r.byKey || j in w'.pending {
      assert Listed(w.r, d);
    }
  }

  lemma NoteMarks(r: Registry, src: Cid)
    ensures var r' := NoteActivity(r, src);
      && r'.clients.Keys == r.clients.Keys && r'.byKey.Keys == r.byKey.Keys
      && (forall d :: d in r.clients ==> r'.clients[d].received == r.clients[d].received)
  {
  }

  // ---- every step, every run --------------------------------------------------------------------------

  lemma DropKeeps(w: World)
    requires Inv(w)
    ensures Inv(Step(w, Drop))
  {
    hide SetOk, KeyLogOk;
  }

  lemma StepKeeps(w: World, e: Event)
    requires Inv(w)
    ensures Inv(Step(w, e))
  {
    hide RegistryOk, LogOk, MarksOk, Register, Remove, Route, Announce, Listed;
    if Step(w, e) != w {
      match e
      case Join(c, k, flow) => RegisterKeeps(w.r, c, k, flow); JoinLog(w, c, k, flow); JoinMarks(w, c, k, flow);
      case Leave(c) => RemoveKeeps(w.r, c); LeaveKeepsLog(w, c); LeaveMarks(w, c);
      case Tell(k) => AnnounceKeeps(w.r, k); TellLog(w, k); TellMarks(w, k);
      case Send(src, payload, disco) =>
        RouteKeeps(w.r, src, payload, disco); SendLog(w, src, payload, disco); SendMarks(w, src, payload, disco);
      case Drop => DropKeeps(w);
    }
  }

  lemma TellLog(w: World, k: NodeKey)
    requires LogOk(w) && k in w.pending
    ensures LogOk(Step(w, Tell(k)))
  {
    var w' := Step(w, Tell(k));
    forall j | j in w'.log ensures KeyLogOk(w'.r, j, w'.log[j]) { LogStays(w.r, w'.r, j, w.log[j]); }
  }

  /** The invariant holds after every sequence of joins, leaves, sends and announcements. */
  lemma {:induction false} RunOk(fighters: bool, events: seq<Event>)
    ensures Inv(Run(fighters, events)) && Run(fighters, events).r.fighters == fighters
    decreases |events|
  {
    if events != [] {
      var front := events[..|events| - 1];
      RunOk(fighters, front);
      StepKeeps(Run(fighters, front), events[|events| - 1]);
      PolicyStays(Run(fighters, front), events[|events| - 1]);
    }
  }

  lemma PolicyStays(w: World, e: Event)
    ensures Step(w, e).r.fighters == w.r.fighters
  {
  }
}
