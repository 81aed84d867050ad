/**
 The relay registry as the program holds it: relayClient, clientSet and syntheticRelay objects whose fields,
 slices and maps change in place. Each method is the body of one critical section; its postcondition is the
 function of Relay that runs step with, so every theorem about runs speaks about these methods.
 */
module RelayHandler {
  import opened Common
  import opened Relay
  import opened RelayLog
  import RelaySteps

  class RelayClient {
    ghost const id: Cid
    const clientKey: NodeKey
    const tunnelFlowID: FlowId
    var disabled: bool
    var received: set<NodeKey>

    ghost function Record(): Client
      reads this
    {
      Client(clientKey, tunnelFlowID, disabled, received)
    }

    constructor (ghost id: Cid, k: NodeKey, flow: FlowId)
      ensures this.id == id && Record() == Client(k, flow, false, {})
    {
      this.id, clientKey, tunnelFlowID := id, k, flow;
      disabled, received := false, {};
    }
  }

  ghost function IdOf(c: RelayClient?): Option<Cid> {
    if c == null then None else Some(c.id)
  }

  ghost function Ids(s: seq<RelayClient>): (r: seq<Cid>)
    ensures |r| == |s| && forall i :: 0 <= i < |s| ==> r[i] == s[i].id
  {
    seq(|s|, i requires 0 <= i < |s| => s[i].id)
  }

  /** clients describes every member of s. */
  ghost predicate Described(clients: map<Cid, Client>, s: seq<RelayClient>)
    reads s
  {
    forall x :: x in s ==> x.id in clients && clients[x.id] == x.Record()
  }

  /** The newest member of s that is not disabled. */
  method NewestEnabled(ghost clients: map<Cid, Client>, s: seq<RelayClient>) returns (c: RelayClient?)
    requires Described(clients, s)
    ensures IdOf(c) == LastEnabled(clients, Ids(s)) && (c != null ==> c in s)
  {
    var i := |s|;
    assert Ids(s)[..i] == Ids(s);
    while i > 0
      invariant 0 <= i <= |s|
      invariant LastEnabled(clients, Ids(s)) == LastEnabled(clients, Ids(s)[..i])
    {
      i := i - 1;
      assert Ids(s)[..i + 1][..i] == Ids(s)[..i];
      if !s[i].disabled {
        return s[i];
      }
    }
    return null;
  }

  /** s without c, order kept. */
  method Delete(s: seq<RelayClient>, c: RelayClient) returns (t: seq<RelayClient>)
    requires forall x :: x in s && x.id == c.id ==> x == c
    ensures Ids(t) == Without(Ids(s), c.id)
    ensures forall x :: x in t ==> x in s
  {
    t := [];
    for i := 0 to |s|
      invariant Ids(t) == Without(Ids(s)[..i], c.id)
      invariant forall x :: x in t ==> x in s
    {
      assert Ids(s)[..i + 1] == Ids(s)[..i] + [s[i].id];
      WithoutAppend(Ids(s)[..i], c.id, s[i].id);
      ghost var was := t;
      if s[i] != c {
        t := t + [s[i]];
      }
      assert Ids(t) == Ids(was) + if s[i] == c then [] else [s[i].id];
    }
    assert Ids(s)[..|s|] == Ids(s);
  }

  /** Every connection the set names is a known one. */
  ghost predicate Within(cs: ClientSet, all: map<Cid, RelayClient>)
    reads cs
  {
    && (cs.active != null ==> cs.active.id in all && all[cs.active.id] == cs.active)
    && (cs.last != null ==> cs.last.id in all && all[cs.last.id] == cs.last)
    && (forall x :: x in cs.conns ==> x.id in all && all[x.id] == x)
    && (forall x :: x in cs.sendHistory ==> x.id in all && all[x.id] == x)
  }

  lemma NobodyNamed(cs: ClientSet, all: map<Cid, RelayClient>)
    requires cs.active == cs.last == null && cs.conns == cs.sendHistory == []
    ensures Within(cs, all)
  {
  }

  lemma WithinMore(cs: ClientSet, all: map<Cid, RelayClient>, id: Cid, c: RelayClient)
    requires Within(cs, all) && id !in all
    ensures Within(cs, all[id := c])
  {
  }

  ghost function Describe(all: map<Cid, RelayClient>): map<Cid, Client>
    reads all.Values
  {
    map i | i in all :: all[i].Record()
  }

  /** A set after an enabled member src of two or more sent. */
  ghost function Noted(cs: Relay.ClientSet, src: Cid, fighters: bool): Relay.ClientSet {
    var cs1 := Led(cs, src, fighters);
    if |cs.history| > 0 && cs.history[|cs.history| - 1] == src then cs1 else Spoken(cs1, src, fighters)
  }

  ghost function Led(cs: Relay.ClientSet, src: Cid, fighters: bool): (r: Relay.ClientSet)
    ensures r.history == cs.history && r.conns == cs.conns
  {
    if !fighters || cs.last.None? then cs.(last := Some(src), active := Some(src)) else cs
  }

  ghost function Spoken(cs: Relay.ClientSet, src: Cid, fighters: bool): Relay.ClientSet {
    var moved := cs.(history := Without(cs.history, src) + [src]);
    if fighters && Fights(cs, src) then moved.(active := None) else moved
  }

  ghost function DescribedAfter(clients: map<Cid, Client>, cs: Relay.ClientSet, src: Cid, fighters: bool)
    : map<Cid, Client>
  {
    if fighters && Fights(cs, src) then DisableAll(clients, cs.conns) else clients
  }

  ghost function Trimmed(cs: Relay.ClientSet, c: Cid): Relay.ClientSet {
    var last := if cs.last == Some(c) then None else cs.last;
    Relay.ClientSet(cs.active, last, Without(cs.conns, c), Without(cs.history, c))
  }

  /** A connection whose mark for k is cleared, if it is a target. */
  ghost function Unmarked(c: Client, target: bool, k: NodeKey): Client {
    if target then c.(received := c.received - {k}) else c
  }

  lemma ConnsKnown(cs: ClientSet, all: map<Cid, RelayClient>)
    requires Within(cs, all)
    ensures forall x :: x in cs.conns ==> x in all.Values
  {
  }

  class ClientSet {
    var active: RelayClient?
    var last: RelayClient?
    var conns: seq<RelayClient>
    var sendHistory: seq<RelayClient>   // senders least to most recent

    ghost function Record(): Relay.ClientSet
      reads this
    {
      Relay.ClientSet(IdOf(active), IdOf(last), Ids(conns), Ids(sendHistory))
    }

    constructor ()
      ensures Record() == Relay.ClientSet(None, None, [], []) && active == last == null && conns == sendHistory == []
    {
      active, last, conns, sendHistory := null, null, [], [];
    }

    method Add(c: RelayClient, ghost all: map<Cid, RelayClient>)
      requires Within(this, all) && c.id in all && all[c.id] == c
      modifies this
      ensures Within(this, all)
      ensures conns == old(conns) + [c] && active == last == c && sendHistory == old(sendHistory)
      ensures Record() == Relay.ClientSet(Some(c.id), Some(c.id), old(Record()).conns + [c.id], old(Record()).history)
    {
      conns := conns + [c];
      active, last := c, c;
    }

    method DisableConns()
      modifies conns
      ensures forall x :: x in conns ==> x.disabled && x.received == old(x.received)
    {
      for i := 0 to |conns|
        invariant forall x :: x in conns[..i] ==> x.disabled
        invariant forall x :: x in conns ==> x.received == old(x.received)
      {
        conns[i].disabled := true;
      }
    }

    /** The whole set stops receiving. */
    method Disable(ghost all: map<Cid, RelayClient>)
      requires Within(this, all) && forall i :: i in all ==> all[i].id == i
      modifies `active, conns
      ensures Within(this, all) && Record() == old(Record()).(active := None)
      ensures Describe(all) == DisableAll(old(Describe(all)), Ids(conns))
    {
      DisableConns();
      active := null;
    }

    /** The last writer receives; under disable_fighters the first speaker. */
    method Lead(src: RelayClient, disableFighters: bool, ghost all: map<Cid, RelayClient>)
      requires Within(this, all) && src.id in all && all[src.id] == src
      modifies `active, `last
      ensures Within(this, all) && Record() == Led(old(Record()), src.id, disableFighters)
    {
      if !disableFighters || last == null {
        last, active := src, src;
      }
    }

    lemma Spoke(src: RelayClient, all: map<Cid, RelayClient>)
      requires Within(this, all) && src.id in all && all[src.id] == src
      ensures src in sendHistory <==> src.id in Ids(sendHistory)
    {
      if src.id in Ids(sendHistory) {
        var i :| 0 <= i < |sendHistory| && Ids(sendHistory)[i] == src.id;
        assert sendHistory[i] in sendHistory;
      }
    }

    /** src becomes the most recent sender, deduped by moving it to the end. */
    method MoveToEnd(src: RelayClient, ghost all: map<Cid, RelayClient>)
      requires Within(this, all) && src.id in all && all[src.id] == src
      modifies `sendHistory
      ensures Within(this, all) && Ids(sendHistory) == Without(old(Ids(sendHistory)), src.id) + [src.id]
    {
      var h := sendHistory;
      if src in h {
        h := Delete(h, src);
      } else {
        assert forall i :: 0 <= i < |h| ==> h[i] in h && h[i].id != src.id;
        RelaySteps.WithoutNone(Ids(h), src.id);
      }
      sendHistory := h + [src];
      assert Ids(sendHistory) == Ids(h) + [src.id];
    }

    /** A sender other than the last one: speaking again after someone else is a fight. */
    method Speak(src: RelayClient, disableFighters: bool, ghost all: map<Cid, RelayClient>)
      requires Within(this, all) && src.id in all && all[src.id] == src && forall i :: i in all ==> all[i].id == i
      requires |sendHistory| > 0 ==> sendHistory[|sendHistory| - 1] != src
      modifies `active, `sendHistory, conns
      ensures Within(this, all)
      ensures Record() == Spoken(old(Record()), src.id, disableFighters)
      ensures Describe(all) == DescribedAfter(old(Describe(all)), old(Record()), src.id, disableFighters)
    {
      hide Within, DisableAll, Describe;
      assert src in sendHistory <==> src.id in Ids(sendHistory) by { Spoke(src, all); }
      assert |sendHistory| > 0 ==> Ids(sendHistory)[|sendHistory| - 1] != src.id by { LastSpoke(src, all); }
      if src in sendHistory && disableFighters {
        Disable(all);
      }
      MoveToEnd(src, all);
    }

    lemma LastSpoke(src: RelayClient, all: map<Cid, RelayClient>)
      requires Within(this, all) && src.id in all && all[src.id] == src
      requires |sendHistory| > 0 ==> sendHistory[|sendHistory| - 1] != src
      ensures |sendHistory| > 0 ==> Ids(sendHistory)[|sendHistory| - 1] != src.id
    {
    }

    /** The body of noteActivity for a set of two or more and an enabled sender. */
    method Note(src: RelayClient, disableFighters: bool, ghost all: map<Cid, RelayClient>)
      requires Within(this, all) && src.id in all && all[src.id] == src && forall i :: i in all ==> all[i].id == i
      modifies `active, `last, `sendHistory, conns
      ensures Within(this, all)
      ensures Record() == Noted(old(Record()), src.id, disableFighters)
      ensures Describe(all) == DescribedAfter(old(Describe(all)), old(Record()), src.id, disableFighters)
    {
      hide Within, DisableAll, Describe, Led, Spoken;
      Lead(src, disableFighters, all);
      if |sendHistory| > 0 && sendHistory[|sendHistory| - 1] == src {
        return;
      }
      LastSpoke(src, all);
      Speak(src, disableFighters, all);
    }

    method PromoteSurvivor(ghost clients: map<Cid, Client>) returns (c: RelayClient?)
      requires Described(clients, sendHistory) && Described(clients, conns)
      ensures IdOf(c) == Promote(clients, Record())
      ensures c != null ==> c in sendHistory || c in conns
    {
      c := NewestEnabled(clients, sendHistory);
      if c != null {
        return c;
      }
      c := NewestEnabled(clients, conns);
    }

    /** Drops c from the set: never linger on a departed connection. */
    method Trim(c: RelayClient, ghost all: map<Cid, RelayClient>)
      requires Within(this, all) && c.id in all && all[c.id] == c
      modifies `conns, `last, `sendHistory
      ensures Within(this, all)
      ensures forall x :: x in conns ==> x in old(conns)
      ensures Record() == Trimmed(old(Record()), c.id)
    {
      conns := Delete(conns, c);
      if last == c {
        last := null;
      }
      sendHistory := Delete(sendHistory, c);
    }

    /** One connection stays: fighting state is cleared and it is enabled again. */
    method Collapse(ghost all: map<Cid, RelayClient>)
      requires |conns| == 1 && Within(this, all) && forall i :: i in all ==> all[i].id == i
      modifies `active, `last, `sendHistory, conns
      ensures Within(this, all)
      ensures var s := old(Ids(conns))[0]; Record() == Relay.ClientSet(Some(s), Some(s), old(Ids(conns)), [])
      ensures Describe(all) == Reenable(old(Describe(all)), old(Ids(conns)))
    {
      var s := conns[0];
      s.disabled := false;
      active, last, sendHistory := s, s, [];
    }

    /** What remove does to a set; an empty one is the caller's to delete. */
    method Leave(c: RelayClient, ghost all: map<Cid, RelayClient>)
      requires Within(this, all) && c.id in all && all[c.id] == c && forall i :: i in all ==> all[i].id == i
      modifies this, conns
      ensures Within(this, all)
      ensures |conns| == |Without(old(Ids(conns)), c.id)|
      ensures |conns| == 0 ==> Describe(all) == old(Describe(all))
      ensures |conns| > 0 ==> Record() == Remaining(old(Describe(all)), old(Record()), c.id)
      ensures |conns| > 0 ==> Describe(all) == Reenable(old(Describe(all)), Without(old(Ids(conns)), c.id))
    {
      hide Within, Describe;
      Trim(c, all);
      if |conns| == 1 {
        assert conns[0] in conns;
        Collapse(all);
      } else if |conns| > 1 {
        Follow(all);
      }
    }

    lemma AllDescribed(all: map<Cid, RelayClient>)
      requires Within(this, all)
      ensures Described(Describe(all), sendHistory) && Described(Describe(all), conns)
      ensures forall x :: x in sendHistory || x in conns ==> x.id in all && all[x.id] == x
    {
    }

    /** active follows last while it is enabled. */
    method Echo(ghost all: map<Cid, RelayClient>)
      requires Within(this, all)
      modifies `active
      ensures Within(this, all)
      ensures Record() == old(Record()).(active := ActiveOf(Describe(all), old(Record()).last))
    {
      active := null;
      if last != null && !last.disabled {
        active := last;
      }
    }

    /** Two or more connections stay: last is promoted if it went, and active follows it while it is enabled. */
    method Follow(ghost all: map<Cid, RelayClient>)
      requires Within(this, all)
      modifies `active, `last
      ensures Within(this, all)
      ensures var last' := if old(last) == null then Promote(Describe(all), old(Record())) else old(IdOf(last));
        Record() == Relay.ClientSet(ActiveOf(Describe(all), last'), last', Ids(conns), Ids(sendHistory))
    {
      if last == null {
        AllDescribed(all);
        last := PromoteSurvivor(Describe(all));
      }
      Echo(all);
    }
  }

  /** A frame written to a connection. */
  datatype Frame =
    | RecvFrame(to: RelayClient, from: NodeKey, packet: Bytes)
    | GoneFrame(to: RelayClient, peer: NodeKey, reason: Reason)

  ghost function Sent(out: seq<Frame>): (r: seq<Out>)
    ensures |r| == |out|
  {
    seq(|out|, i requires 0 <= i < |out| => match out[i]
      case RecvFrame(to, from, packet) => RecvPacket(to.id, from, packet)
      case GoneFrame(to, peer, reason) => PeerGone(to.id, peer, reason))
  }

  class SyntheticRelay {
    const disableFighters: bool
    var byKey: map<NodeKey, ClientSet>
    var byTunnel: map<FlowId, RelayClient>
    ghost var all: map<Cid, RelayClient>   // every connection ever

    ghost predicate Valid()
      reads this, byKey.Values
    {
      && (forall i :: i in all ==> all[i].id == i)
      && (forall f :: f in byTunnel ==> Knows(byTunnel[f]))
      && (forall k :: k in byKey ==> Within(byKey[k], all))
      && (forall j, k :: j in byKey && k in byKey && byKey[j] == byKey[k] ==> j == k)
    }

    ghost predicate Knows(c: RelayClient)
      reads this
    {
      c.id in all && all[c.id] == c
    }

    ghost function Sets(): (r: map<NodeKey, Relay.ClientSet>)
      ensures r.Keys == byKey.Keys
      reads `byKey, byKey.Values
    {
      map k | k in byKey :: byKey[k].Record()
    }

    ghost function Tunnels(): map<FlowId, Cid>
      reads `byTunnel
    {
      map f | f in byTunnel :: byTunnel[f].id
    }

    ghost function Clients(): map<Cid, Client>
      reads `all, all.Values
    {
      Describe(all)
    }

    ghost function View(): Registry
      reads this, all.Values, byKey.Values
    {
      Registry(disableFighters, Sets(), Tunnels(), Clients())
    }

    constructor (disableFighters: bool)
      ensures Valid() && View() == Registry(disableFighters, map[], map[], map[])
    {
      this.disableFighters := disableFighters;
      byKey, byTunnel, all := map[], map[], map[];
    }

    /** When k's set is the only one touched, the sets change at k alone. */
    twostate lemma SetTouched(k: NodeKey)
      requires k in byKey && byKey == old(byKey)
      requires forall j :: j in byKey && j != k ==> byKey[j].Record() == old(byKey[j].Record())
      ensures Sets() == old(Sets())[k := byKey[k].Record()]
    {
    }

    twostate lemma SetAdded(k: NodeKey)
      requires k in byKey && byKey == old(byKey)[k := byKey[k]] && k !in old(byKey)
      requires forall j :: j in old(byKey) ==> byKey[j].Record() == old(byKey[j].Record())
      ensures Sets() == old(Sets())[k := byKey[k].Record()]
    {
    }

    /** A key nobody holds gets an empty set. */
    method Found(k: NodeKey)
      requires Valid() && k !in byKey
      modifies `byKey
      ensures Valid() && k in byKey && byKey == old(byKey)[k := byKey[k]] && fresh(byKey[k])
      ensures Sets() == old(Sets())[k := Relay.ClientSet(None, None, [], [])]
    {
      hide Within, Sets, IdOf, Ids;
      var cs := new ClientSet();
      assert Within(cs, all) by { NobodyNamed(cs, all); }
      byKey := byKey[k := cs];
      SetAdded(k);
    }

    /** A new connection is known from here on. */
    method Admit(ghost id: Cid, k: NodeKey, flow: FlowId) returns (c: RelayClient)
      requires Valid() && id !in all
      modifies `all
      ensures Valid() && fresh(c) && c.id == id && c.Record() == Client(k, flow, false, {}) && all == old(all)[id := c]
      ensures Clients() == old(Clients())[id := c.Record()] && Sets() == old(Sets())
    {
      hide Within;
      c := new RelayClient(id, k, flow);
      forall j | j in byKey { WithinMore(byKey[j], all, id, c); }
      all := all[id := c];
      assert Describe(all) == old(Describe(all))[id := c.Record()];
    }

    method AddTo(k: NodeKey, c: RelayClient)
      requires Valid() && Knows(c) && k in byKey
      modifies byKey[k]
      ensures Valid()
      ensures var cs := old(Sets())[k];
        Sets() == old(Sets())[k := Relay.ClientSet(Some(c.id), Some(c.id), cs.conns + [c.id], cs.history)]
    {
      hide Within;
      byKey[k].Add(c, all);
      SetTouched(k);
    }

    /** The newest connection of its key becomes the key's last and active one. */
    method Enlist(c: RelayClient)
      requires Valid() && Knows(c)
      modifies `byKey, byKey.Values
      ensures Valid()
      ensures Clients() == old(Clients())
      ensures var k := c.clientKey;
        var cs := if k in old(Sets()) then old(Sets())[k] else Relay.ClientSet(None, None, [], []);
        Sets() == old(Sets())[k := Relay.ClientSet(Some(c.id), Some(c.id), cs.conns + [c.id], cs.history)]
    {
      hide Within, Sets, Clients;
      var k := c.clientKey;
      if k !in byKey {
        Found(k);
      }
      AddTo(k, c);
    }

    method Bind(c: RelayClient)
      requires Valid() && Knows(c)
      modifies `byTunnel
      ensures Valid() && Tunnels() == old(Tunnels())[c.tunnelFlowID := c.id]
    {
      hide Within;
      byTunnel := byTunnel[c.tunnelFlowID := c];
      assert Tunnels() == old(Tunnels())[c.tunnelFlowID := c.id];
    }

    /** The newest connection of a key receives. */
    method Register(ghost id: Cid, k: NodeKey, flow: FlowId) returns (c: RelayClient)
      requires Valid() && id !in all
      modifies this, byKey.Values
      ensures Valid() && Knows(c) && fresh(c) && c.id == id
      ensures View() == Relay.Register(old(View()), id, k, flow)
    {
      hide Within, Sets, Clients;
      c := Admit(id, k, flow);
      Enlist(c);
      Bind(c);
    }

    /** Records src as its set's most recent sender. */
    method NoteActivity(src: RelayClient)
      requires Valid() && Knows(src)
      modifies byKey.Values, all.Values
      ensures Valid() && View() == Relay.NoteActivity(old(View()), src.id)
    {
      hide Within, Noted;
      var k := src.clientKey;
      if k !in byKey || |byKey[k].conns| < 2 || src.disabled {
        return;
      }
      NoteIn(k, src);
      NotedIs(old(View()), k, src.id);
    }

    /** The set's own view of a send is the registry's. */
    lemma NotedIs(r: Registry, k: NodeKey, src: Cid)
      requires Records(r, src) && r.clients[src].key == k
      ensures var cs := r.byKey[k];
        Relay.NoteActivity(r, src) == r.(byKey := r.byKey[k := Noted(cs, src, r.fighters)],
          clients := DescribedAfter(r.clients, cs, src, r.fighters))
    {
    }

    method NoteIn(k: NodeKey, src: RelayClient)
      requires Valid() && Knows(src) && k in byKey
      modifies byKey.Values, all.Values
      ensures Valid()
      ensures Sets() == old(Sets())[k := Noted(old(Sets())[k], src.id, disableFighters)]
      ensures Clients() == DescribedAfter(old(Clients()), old(Sets())[k], src.id, disableFighters)
    {
      hide Within, Noted, DescribedAfter, Describe;
      ConnsKnown(byKey[k], all);
      var cs := byKey[k];
      cs.Note(src, disableFighters, all);
      SetTouched(k);
    }

    /** route: the locked lookup, then at most one frame written to a connection. */
    method Route(src: RelayClient, payload: Bytes, disco: bool) returns (out: seq<Frame>)
      requires Valid() && Knows(src)
      modifies byKey.Values, all.Values
      ensures Valid() && (Sent(out), View()) == Relay.Route(old(View()), src.id, payload, disco)
    {
      hide Within, Sets, Clients, Relay.NoteActivity;
      if |payload| < KEY_LEN {
        out := [];
        assert Sent(out) == [];
        return;
      }
      var dst, packet := payload[..KEY_LEN], payload[KEY_LEN..];
      KnownKey(src);
      NoteActivity(src);
      ghost var noted := View();
      assert noted == Relay.NoteActivity(old(View()), src.id);
      var peer := Lookup(dst);
      if peer == null {
        out := if dst !in byKey && disco then [GoneFrame(src, dst, NotHere)] else [];
        assert Sent(out) == if dst !in noted.byKey && disco then [PeerGone(src.id, dst, NotHere)] else [];
        return;
      }
      Receive(peer, src.clientKey);
      out := [RecvFrame(peer, src.clientKey, packet)];
      assert Sent(out) == [RecvPacket(peer.id, src.clientKey, packet)];
    }

    lemma KnownKey(c: RelayClient)
      requires Knows(c)
      ensures c.id in View().clients && View().clients[c.id] == c.Record()
    {
    }

    method Lookup(dst: NodeKey) returns (peer: RelayClient?)
      requires Valid()
      ensures IdOf(peer) == Receiver(View(), dst) && (peer != null ==> Knows(peer))
    {
      return if dst in byKey then byKey[dst].active else null;
    }

    method Receive(peer: RelayClient, from: NodeKey)
      requires Valid() && Knows(peer)
      modifies peer`received
      ensures Valid() && View() == Mark(old(View()), peer.id, from)
    {
      hide Within, Sets;
      peer.received := peer.received + {from};
      assert Clients() == Mark(old(View()), peer.id, from).clients;
    }

    /** remove, up to its unlock; true asks for the key to be announced gone. */
    method Remove(c: RelayClient) returns (gone: bool)
      requires Valid() && Knows(c)
      modifies this, byKey.Values, all.Values
      ensures Valid() && (gone, View()) == Relay.Remove(old(View()), c.id)
    {
      hide Within, Sets, Clients, Remaining, Reenable;
      KnownKey(c);
      Unbind(c);
      var k := c.clientKey;
      if k !in byKey {
        return false;
      }
      LeaveIn(k, c);
      if |byKey[k].conns| == 0 {
        Forget(k);
        return true;
      }
      return false;
    }

    method Unbind(c: RelayClient)
      requires Valid() && Knows(c)
      modifies `byTunnel
      ensures Valid() && Tunnels() == old(Tunnels()) - {c.tunnelFlowID}
    {
      hide Within;
      byTunnel := byTunnel - {c.tunnelFlowID};
      assert Tunnels() == old(Tunnels()) - {c.tunnelFlowID};
    }

    method LeaveIn(k: NodeKey, c: RelayClient)
      requires Valid() && Knows(c) && k in byKey
      modifies byKey.Values, all.Values
      ensures Valid() && |byKey[k].conns| == |Without(old(Sets())[k].conns, c.id)|
      ensures if |byKey[k].conns| == 0 then Clients() == old(Clients())
        else Clients() == Reenable(old(Clients()), Without(old(Sets())[k].conns, c.id))
      ensures if |byKey[k].conns| == 0 then Sets() - {k} == old(Sets()) - {k}
        else Sets() == old(Sets())[k := Remaining(old(Clients()), old(Sets())[k], c.id)]
    {
      hide Within, Describe, Remaining, Reenable;
      ConnsKnown(byKey[k], all);
      byKey[k].Leave(c, all);
      SetTouched(k);
    }

    method Forget(k: NodeKey)
      requires Valid() && k in byKey
      modifies `byKey
      ensures Valid() && Sets() == old(Sets()) - {k}
    {
      hide Within;
      byKey := byKey - {k};
      assert Sets() == old(Sets()) - {k};
    }

    /** The connections to tell that the key is gone, each once; their marks are cleared under the same lock. */
    method AnnounceGone(gone: NodeKey) returns (targets: seq<RelayClient>)
      requires Valid()
      modifies all.Values
      ensures Valid() && View() == Announce(old(View()), gone).1
      ensures NoDuplicates(targets) && forall i :: i in all ==>
          (all[i] in targets <==> i in Announce(old(View()), gone).0)
    {
      hide Within, Sets;
      targets := ClearMarks(gone);
      forall i | i in all ensures all[i] in targets <==> i in Marked(old(View()), gone) {
        if i in Marked(old(View()), gone) {
          var f :| f in byTunnel && byTunnel[f].id == i && gone in old(byTunnel[f].received);
          assert all[i] == byTunnel[f];
        }
        if all[i] in targets {
          var f :| f in byTunnel && byTunnel[f] == all[i];
          assert f in old(Tunnels()) && old(Tunnels())[f] == i;
        }
      }
      assert Clients() == Announce(old(View()), gone).1.clients;
    }

    method ClearMarks(gone: NodeKey) returns (targets: seq<RelayClient>)
      requires Valid()
      modifies all.Values
      ensures Valid() && NoDuplicates(targets)
      ensures forall x :: x in targets ==>
          exists f :: f in byTunnel && byTunnel[f] == x && gone in old(byTunnel[f].received)
      ensures forall f :: f in byTunnel ==> gone !in byTunnel[f].received
      ensures forall i :: i in all ==> all[i].Record() == Unmarked(old(all[i].Record()), all[i] in targets, gone)
    {
      hide Within;
      targets := [];
      var todo := byTunnel.Keys;
      while todo != {}
        invariant todo <= byTunnel.Keys && NoDuplicates(targets)
        invariant forall x :: x in targets ==>
            exists f :: f in byTunnel && byTunnel[f] == x && gone in old(byTunnel[f].received)
        invariant forall f :: f in byTunnel && f !in todo ==> gone !in byTunnel[f].received
        invariant forall i :: i in all ==> all[i].Record() == Unmarked(old(all[i].Record()), all[i] in targets, gone)
      {
        var f :| f in todo;
        var c := byTunnel[f];
        if gone in c.received {
          targets := targets + [c];
          c.received := c.received - {gone};
        }
        todo := todo - {f};
      }
    }

    /** Empties the registry and hands back the connections to close. */
    method CloseAll() returns (conns: set<RelayClient>)
      requires Valid()
      modifies `byKey, `byTunnel
      ensures Valid() && View() == Relay.CloseAll(old(View())).1
      ensures forall i :: i in Relay.CloseAll(old(View())).0 <==> i in all && all[i] in conns
    {
      conns := byTunnel.Values;
      byKey, byTunnel := map[], map[];
      assert Sets() == map[] && Tunnels() == map[];
      assert forall f :: f in old(byTunnel) ==> old(Tunnels())[f] == old(byTunnel)[f].id;
    }
  }
}
