/**
 The synthetic DERP relay registry (sidescale/derp/relay.go), as values. Each function is one critical
 section under r.mu; a connection keeps its name after it leaves, so "every connection ever" can be spoken about.
 */
module Relay {
  import opened Common

  type NodeKey = Bytes
  type Cid = nat
  type FlowId = string

  datatype Client = Client(key: NodeKey, flow: FlowId, disabled: bool, received: set<NodeKey>)

  /** history lists senders least to most recent. */
  datatype ClientSet = ClientSet(active: Option<Cid>, last: Option<Cid>, conns: seq<Cid>, history: seq<Cid>)

  datatype Registry = Registry(
    fighters: bool,                     // the disable_fighters policy; otherwise the last writer receives
    byKey: map<NodeKey, ClientSet>,
    byTunnel: map<FlowId, Cid>,
    clients: map<Cid, Client>)

  datatype Reason = Disconnected | NotHere

  /** A frame written to a connection. */
  datatype Out = RecvPacket(to: Cid, from: NodeKey, packet: Bytes) | PeerGone(to: Cid, peer: NodeKey, reason: Reason)

  // ---- small pieces ------------------------------------------------------------

  /** s without c, order kept. */
  function Without(s: seq<Cid>, c: Cid): (r: seq<Cid>)
    ensures c !in r && |r| <= |s|
    ensures forall x :: x in r <==> x in s && x != c
  {
    if s == [] then [] else if s[0] == c then Without(s[1..], c) else [s[0]] + Without(s[1..], c)
  }

  predicate Enabled(clients: map<Cid, Client>, c: Cid) {
    c in clients && !clients[c].disabled
  }

  /** The last enabled member of s. */
  function LastEnabled(clients: map<Cid, Client>, s: seq<Cid>): Option<Cid> {
    if s == [] then None
    else if Enabled(clients, s[|s| - 1]) then Some(s[|s| - 1])
    else LastEnabled(clients, s[..|s| - 1])
  }

  /** promoteSurvivor: the most recent enabled sender, else the newest enabled connection. */
  function Promote(clients: map<Cid, Client>, cs: ClientSet): Option<Cid> {
    var c := LastEnabled(clients, cs.history);
    if c.Some? then c else LastEnabled(clients, cs.conns)
  }

  /** active follows last while last is enabled. */
  function ActiveOf(clients: map<Cid, Client>, last: Option<Cid>): Option<Cid> {
    if last.Some? && Enabled(clients, last.value) then last else None
  }

  // ---- critical sections -----------------------------------------------------------

  function Register(r: Registry, c: Cid, k: NodeKey, flow: FlowId): Registry {
    var cs := if k in r.byKey then r.byKey[k] else ClientSet(None, None, [], []);
    r.(byKey := r.byKey[k := ClientSet(Some(c), Some(c), cs.conns + [c], cs.history)],
       byTunnel := r.byTunnel[flow := c],
       clients := r.clients[c := Client(k, flow, false, {})])
  }

  /** What is left of a set when c goes and others stay. */
  function Remaining(clients: map<Cid, Client>, cs: ClientSet, c: Cid): ClientSet
    requires Without(cs.conns, c) != []
  {
    var conns, history := Without(cs.conns, c), Without(cs.history, c);
    if |conns| == 1 then
      ClientSet(Some(conns[0]), Some(conns[0]), conns, [])   // collapse: clear fighting state
    else
      var last := if cs.last == Some(c) || cs.last == None
                  then Promote(clients, ClientSet(None, None, conns, history)) else cs.last;
      ClientSet(ActiveOf(clients, last), last, conns, history)
  }

  /** A connection left alone is re-enabled. */
  function Reenable(clients: map<Cid, Client>, conns: seq<Cid>): map<Cid, Client> {
    if |conns| == 1 && conns[0] in clients then clients[conns[0] := clients[conns[0]].(disabled := false)] else clients
  }

  /** remove, up to its unlock; true asks for the key to be announced gone. */
  function Remove(r: Registry, c: Cid): (bool, Registry)
    requires c in r.clients
  {
    var k, byTunnel := r.clients[c].key, r.byTunnel - {r.clients[c].flow};
    if k !in r.byKey then (false, r.(byTunnel := byTunnel))
    else
      var conns := Without(r.byKey[k].conns, c);
      if |conns| == 0 then
        (true, r.(byKey := r.byKey - {k}, byTunnel := byTunnel))
      else
        (false, r.(byKey := r.byKey[k := Remaining(r.clients, r.byKey[k], c)], byTunnel := byTunnel,
                   clients := Reenable(r.clients, conns)))
  }

  function DisableAll(clients: map<Cid, Client>, conns: seq<Cid>): map<Cid, Client> {
    map c | c in clients :: if c in conns then clients[c].(disabled := true) else clients[c]
  }

  /** Is this send recorded at all? A lone connection's is not, nor a disabled one's. */
  predicate Records(r: Registry, src: Cid) {
    src in r.clients && r.clients[src].key in r.byKey
    && |r.byKey[r.clients[src].key].conns| >= 2 && !r.clients[src].disabled
  }

  /** The sender spoke before, and someone else of its set has spoken since. */
  predicate Fights(cs: ClientSet, src: Cid) {
    src in cs.history && cs.history[|cs.history| - 1] != src
  }

  function NoteActivity(r: Registry, src: Cid): Registry {
    if !Records(r, src) then r
    else
      var k := r.clients[src].key;
      var cs := r.byKey[k];
      var cs1 := if !r.fighters || cs.last.None? then cs.(last := Some(src), active := Some(src)) else cs;
      if |cs.history| > 0 && cs.history[|cs.history| - 1] == src then
        r.(byKey := r.byKey[k := cs1])
      else
        var moved := cs1.(history := Without(cs.history, src) + [src]);
        if r.fighters && Fights(cs, src) then
          r.(byKey := r.byKey[k := moved.(active := None)], clients := DisableAll(r.clients, cs.conns))
        else
          r.(byKey := r.byKey[k := moved])
  }

  function Mark(r: Registry, c: Cid, k: NodeKey): Registry {
    if c in r.clients then r.(clients := r.clients[c := r.clients[c].(received := r.clients[c].received + {k})]) else r
  }

  /** Who receives a packet for dst, if anyone. */
  function Receiver(r: Registry, dst: NodeKey): Option<Cid> {
    if dst in r.byKey then r.byKey[dst].active else None
  }

  /** route: one locked step, then at most one frame written. */
  function Route(r: Registry, src: Cid, payload: Bytes, disco: bool): (seq<Out>, Registry)
    requires src in r.clients
  {
    if |payload| < KEY_LEN then ([], r)
    else
      var dst, packet, from := payload[..KEY_LEN], payload[KEY_LEN..], r.clients[src].key;
      var r1 := NoteActivity(r, src);
      var peer := Receiver(r1, dst);
      if peer.Some? then ([RecvPacket(peer.value, from, packet)], Mark(r1, peer.value, from))
      else if dst !in r1.byKey && disco then ([PeerGone(src, dst, NotHere)], r1)
      else ([], r1)
  }

  /** The registered connections that hold a mark for k. */
  function Marked(r: Registry, k: NodeKey): set<Cid> {
    set f | f in r.byTunnel && r.byTunnel[f] in r.clients && k in r.clients[r.byTunnel[f]].received :: r.byTunnel[f]
  }

  /** announceGone: clears the marks it is about to answer. */
  function Announce(r: Registry, k: NodeKey): (set<Cid>, Registry) {
    var targets := Marked(r, k);
    (targets, r.(clients := map c | c in r.clients ::
       if c in targets then r.clients[c].(received := r.clients[c].received - {k}) else r.clients[c]))
  }

  function CloseAll(r: Registry): (set<Cid>, Registry) {
    (r.byTunnel.Values, r.(byKey := map[], byTunnel := map[]))
  }

  // ---- what every critical section keeps ---------------------------------------------

  ghost predicate SetOk(r: Registry, k: NodeKey, cs: ClientSet) {
    && cs.conns != [] && NoDuplicates(cs.conns)
    && (forall c :: c in cs.conns ==> c in r.clients && r.clients[c].key == k)
    && (cs.last.Some? ==> cs.last.value in cs.conns) && (forall c :: c in cs.history ==> c in cs.conns)
    && cs.active == ActiveOf(r.clients, cs.last)
    && (cs.active.None? ==> forall c :: c in cs.conns ==> r.clients[c].disabled)
    && (|cs.conns| == 1 ==> cs.active == Some(cs.conns[0]) && cs.history == [])
    && (!r.fighters ==> forall c :: c in cs.conns ==> !r.clients[c].disabled)
  }

  ghost predicate Listed(r: Registry, c: Cid) {
    c in r.clients && r.clients[c].key in r.byKey && c in r.byKey[r.clients[c].key].conns
  }

  /** byTunnel and the connection sets hold the same clients, each under its own flow and key. */
  ghost predicate Agree(r: Registry) {
    && (forall f :: f in r.byTunnel ==> Listed(r, r.byTunnel[f]) && r.clients[r.byTunnel[f]].flow == f)
    && (forall c :: Listed(r, c) ==> r.clients[c].flow in r.byTunnel && r.byTunnel[r.clients[c].flow] == c)
  }

  ghost predicate FlowsDistinct(r: Registry) {
    forall c, d :: c in r.clients && d in r.clients && r.clients[c].flow == r.clients[d].flow ==> c == d
  }

  ghost predicate RegistryOk(r: Registry) {
    && (forall k :: k in r.byKey ==> SetOk(r, k, r.byKey[k]))
    && Agree(r) && FlowsDistinct(r)
  }
}
