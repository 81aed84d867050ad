/** What the relay promises its clients, over every run. */
module RelayTheorems {
  import opened Common
  import opened Relay
  import opened RelayLog
  import opened RelaySteps

  // ---- duplicate sets ---------------------------------------------------------------

  lemma ReceiverIsEnabled(r: Registry, k: NodeKey)
    requires RegistryOk(r)
    ensures match Receiver(r, k)
      case None => forall c :: c in Live(r, k) ==> !Enabled(r.clients, c)
      case Some(c) => c in Live(r, k) && Enabled(r.clients, c) && r.clients[c].key == k
  {
    hide Agree, FlowsDistinct;
    if k in r.byKey { assert SetOk(r, k, r.byKey[k]); }
  }

  /** A key receives exactly when one of its connections is enabled, on an enabled connection of its own. */
  lemma KeyReceivesIffEnabled(fighters: bool, events: seq<Event>, k: NodeKey)
    ensures var r := Run(fighters, events).r;
      match Receiver(r, k)
      case None => forall c :: c in Live(r, k) ==> !Enabled(r.clients, c)
      case Some(c) => c in Live(r, k) && Enabled(r.clients, c) && r.clients[c].key == k
  {
    hide LogOk, MarksOk, RegistryOk;
    RunOk(fighters, events);
    ReceiverIsEnabled(Run(fighters, events).r, k);
  }

  /**
   A set's last is missing or disabled only when all are disabled, and a lone connection is enabled and has no
   history.
   */
  lemma SetShape(fighters: bool, events: seq<Event>, k: NodeKey)
    requires k in Run(fighters, events).r.byKey
    ensures var r := Run(fighters, events).r; var cs := r.byKey[k];
      && cs.conns != [] && NoDuplicates(cs.conns)
      && cs.active == ActiveOf(r.clients, cs.last)
      && (cs.last.None? || !Enabled(r.clients, cs.last.value) ==> forall c :: c in cs.conns ==> !Enabled(r.clients, c))
      && (|cs.conns| == 1 ==> cs.active == cs.last == Some(cs.conns[0]) && cs.history == [])
      && (!fighters ==> forall c :: c in cs.conns ==> Enabled(r.clients, c))
  {
    hide LogOk, MarksOk, Agree;
    RunOk(fighters, events);
    assert SetOk(Run(fighters, events).r, k, Run(fighters, events).r.byKey[k]);
  }

  /** An enabled sender's set always has a last, so the first-speaker branch of noteActivity is never taken. */
  lemma FirstSpeakerIsDead(fighters: bool, events: seq<Event>, src: Cid)
    requires Listed(Run(fighters, events).r, src) && Contends(Run(fighters, events).r, src)
    ensures var r := Run(fighters, events).r; r.byKey[r.clients[src].key].last.Some?
  {
    hide LogOk, MarksOk, Agree;
    RunOk(fighters, events);
    var r := Run(fighters, events).r;
    RecordsIff(r, src);
    assert SetOk(r, r.clients[src].key, r.byKey[r.clients[src].key]);
  }

  /** The tunnel registry and the connection sets hold the same connections. */
  lemma RegistriesAgree(fighters: bool, events: seq<Event>, c: Cid)
    ensures var r := Run(fighters, events).r;
      c in r.byTunnel.Values <==> exists k :: k in r.byKey && c in r.byKey[k].conns
  {
    hide LogOk, MarksOk;
    RunOk(fighters, events);
    var r := Run(fighters, events).r;
    if c in r.byTunnel.Values {
      var f :| f in r.byTunnel && r.byTunnel[f] == c;
      assert Listed(r, c);
    }
    if exists k :: k in r.byKey && c in r.byKey[k].conns {
      var k :| k in r.byKey && c in r.byKey[k].conns;
      assert SetOk(r, k, r.byKey[k]);
      assert Listed(r, c);
    }
  }

  /** Closing everything hands back every registered connection and no other, and leaves none registered. */
  lemma CloseAllTakesAll(fighters: bool, events: seq<Event>, c: Cid)
    ensures var r := Run(fighters, events).r; var (closed, r') := CloseAll(r);
      && (c in closed <==> Listed(r, c)) && !Listed(r', c)
      && r'.byKey == map[] && r'.byTunnel == map[] && r'.clients == r.clients
  {
    hide LogOk, MarksOk, SetOk;
    RunOk(fighters, events);
    var r := Run(fighters, events).r;
    if Listed(r, c) { assert r.byTunnel[r.clients[c].flow] == c; }
  }

  // ---- the history against the log ------------------------------------------------------

  /** The bounded history is the whole log seen through the live connections: no repeats, never longer than the set. */
  lemma HistoryRefinesLog(fighters: bool, events: seq<Event>, k: NodeKey)
    requires k in Run(fighters, events).r.byKey
    ensures var w := Run(fighters, events); var cs := w.r.byKey[k];
      && k in w.log && cs.history == Project(w.log[k], Live(w.r, k))
      && NoDuplicates(cs.history) && |cs.history| <= |cs.conns|
  {
    hide MarksOk, Agree;
    RunOk(fighters, events);
    var w := Run(fighters, events);
    var cs := w.r.byKey[k];
    assert KeyLogOk(w.r, k, w.log[k]) && SetOk(w.r, k, cs);
    ProjectOnce(w.log[k], Live(w.r, k));
    FitsIn(cs.history, cs.conns);
  }

  lemma {:induction false} FitsIn(a: seq<Cid>, b: seq<Cid>)
    requires NoDuplicates(a) && NoDuplicates(b) && forall c :: c in a ==> c in b
    ensures |a| <= |b|
    decreases |a|
  {
    if a != [] {
      WithoutOnce(b, a[0]);
      assert forall i, j :: 0 <= i < j < |a[1..]| ==> a[1..][i] != a[1..][j];
      assert a[0] !in a[1..];
      FitsIn(a[1..], Without(b, a[0]));
    }
  }

  /** What one recorded send does to its set, read off the projected log. */
  lemma NoteDisablesIff(r: Registry, k: NodeKey, log: seq<Cid>, src: Cid)
    requires k in r.byKey && SetOk(r, k, r.byKey[k]) && KeyLogOk(r, k, log)
    requires Records(r, src) && r.clients[src].key == k && src in r.byKey[k].conns
    ensures var r' := NoteActivity(r, src);
      if r.fighters && src in log && LastLive(log, Live(r, k)) != Some(src)
      then forall c :: c in r.byKey[k].conns ==> !Enabled(r'.clients, c)
      else r'.clients == r.clients
  {
    hide Agree, ActiveOf;
    var cs := r.byKey[k];
    ProjectEnd(log, Live(r, k));
    assert src in cs.history <==> src in log;
    assert cs.history != [] ==> cs.history[|cs.history| - 1] in Project(log, Live(r, k));
  }

  /**
   Under disable_fighters a recorded send disables its whole set exactly when the sender spoke before and another
   live connection of the set spoke last; in every other case, and always under last_writer, it disables nobody.
   */
  lemma FightingIff(fighters: bool, events: seq<Event>, src: Cid)
    requires Listed(Run(fighters, events).r, src) && Contends(Run(fighters, events).r, src)
    ensures var w := Run(fighters, events); var k := w.r.clients[src].key; var r' := NoteActivity(w.r, src);
      && k in w.log
      && if fighters && src in w.log[k] && LastLive(w.log[k], Live(w.r, k)) != Some(src)
         then forall c :: c in w.r.byKey[k].conns ==> !Enabled(r'.clients, c)
         else r'.clients == w.r.clients
  {
    hide MarksOk, Agree, SetOk, KeyLogOk, Project, NoteActivity, LastLive, Live;
    RunOk(fighters, events);
    var w := Run(fighters, events);
    RecordsIff(w.r, src);
    NoteDisablesIff(w.r, w.r.clients[src].key, w.log[w.r.clients[src].key], src);
  }

  /**
   When a set's last connection goes, the latest enabled sender among the survivors takes over, else the newest
   enabled one.
   */
  lemma PromotionPicksLatest(fighters: bool, events: seq<Event>, c: Cid)
    requires Listed(Run(fighters, events).r, c)
    requires var r := Run(fighters, events).r; var cs := r.byKey[r.clients[c].key];
      |cs.conns| > 2 && cs.last == Some(c)
    ensures var w := Run(fighters, events); var k := w.r.clients[c].key; var r' := Remove(w.r, c).1;
      var able := set d | d in Live(w.r, k) && d != c && Enabled(w.r.clients, d);
      && k in w.log && k in r'.byKey
      && r'.byKey[k].last == r'.byKey[k].active
      && r'.byKey[k].active == (if LastLive(w.log[k], able).Some? then LastLive(w.log[k], able)
                                else LastEnabled(w.r.clients, Without(w.r.byKey[k].conns, c)))
  {
    hide MarksOk, Agree, FlowsDistinct;
    RunOk(fighters, events);
    var w := Run(fighters, events);
    var k := w.r.clients[c].key;
    var cs := w.r.byKey[k];
    assert KeyLogOk(w.r, k, w.log[k]) && SetOk(w.r, k, cs);
    WithoutOnce(cs.conns, c);
    ProjectLeave(w.log[k], Live(w.r, k), c);
    LatestEnabled(w.r.clients, w.log[k], Live(w.r, k) - {c});
    assert (set d | d in Live(w.r, k) && d != c && Enabled(w.r.clients, d))
        == (set d | d in Live(w.r, k) - {c} && Enabled(w.r.clients, d));
    LastEnabledIs(w.r.clients, Without(cs.history, c));
    LastEnabledIs(w.r.clients, Without(cs.conns, c));
  }

  // ---- who receives, event by event -----------------------------------------------------------

  /**
   A recorded send makes the sender its key's receiver under last_writer; under disable_fighters it moves nothing,
   or in a fight leaves the key without one. Unrecorded sends and other keys move nothing.
   */
  lemma SendMovesReceiver(fighters: bool, events: seq<Event>, src: Cid, j: NodeKey)
    requires Listed(Run(fighters, events).r, src)
    ensures var w := Run(fighters, events); var k := w.r.clients[src].key; var r' := NoteActivity(w.r, src);
      Receiver(r', j) ==
        if j != k || !Contends(w.r, src) then Receiver(w.r, j)
        else if !fighters then Some(src)
        else if k in w.log && src in w.log[k] && LastLive(w.log[k], Live(w.r, k)) != Some(src) then None
        else Receiver(w.r, j)
  {
    hide MarksOk, Agree, FlowsDistinct, SetOk, KeyLogOk, Project, LastLive, Live, Contends;
    RunOk(fighters, events);
    var w := Run(fighters, events);
    var k := w.r.clients[src].key;
    RecordsIff(w.r, src);
    if Records(w.r, src) { FightIsLogged(w.r, k, w.log[k], src); }
  }

  /** Whether a send is a fight can be read off the log, and a recorded sender's set has a last. */
  lemma FightIsLogged(r: Registry, k: NodeKey, log: seq<Cid>, src: Cid)
    requires k in r.byKey && SetOk(r, k, r.byKey[k]) && KeyLogOk(r, k, log)
    requires src in r.byKey[k].conns && !r.clients[src].disabled
    ensures Fights(r.byKey[k], src) <==> src in log && LastLive(log, Live(r, k)) != Some(src)
    ensures r.byKey[k].last.Some?
  {
    var cs := r.byKey[k];
    ProjectEnd(log, Live(r, k));
    assert src in cs.history <==> src in log;
  }

  /** A receiver that stays keeps receiving whoever else leaves. */
  lemma LeaveSparesReceiver(fighters: bool, events: seq<Event>, c: Cid, k: NodeKey, d: Cid)
    requires c in Run(fighters, events).r.clients && c != d && Receiver(Run(fighters, events).r, k) == Some(d)
    ensures Receiver(Remove(Run(fighters, events).r, c).1, k) == Some(d)
  {
    hide LogOk, MarksOk, Agree, FlowsDistinct, Remaining, Reenable;
    RunOk(fighters, events);
    var r := Run(fighters, events).r;
    assert SetOk(r, k, r.byKey[k]);
    assert d in Without(r.byKey[k].conns, c);
    RemainingSpares(r.clients, r.byKey[k], c, d);
  }

  lemma RemainingSpares(clients: map<Cid, Client>, cs: ClientSet, c: Cid, d: Cid)
    requires d in Without(cs.conns, c) && cs.active == ActiveOf(clients, cs.last) == Some(d)
    ensures Remaining(clients, cs, c).active == Some(d)
  {
    hide LastEnabled;
    if |Without(cs.conns, c)| == 1 { assert Without(cs.conns, c)[0] == d; }
  }

  /** src spoke before, and another live connection of its set spoke last. */
  ghost predicate SpeaksAfterAnother(w: World, src: Cid) {
    && src in w.r.clients && w.r.clients[src].key in w.log
    && src in w.log[w.r.clients[src].key]
    && LastLive(w.log[w.r.clients[src].key], Live(w.r, w.r.clients[src].key)) != Some(src)
  }

  /** The events that take k away from its receiver d. */
  ghost predicate Displaces(w: World, e: Event, k: NodeKey, d: Cid) {
    match e
    case Join(c, j, flow) => j == k && Unused(w.r, c, flow)
    case Leave(c) => c == d
    case Tell(_) => false
    case Send(src, payload, _) =>
      && |payload| >= KEY_LEN && Listed(w.r, src) && w.r.clients[src].key == k && Contends(w.r, src)
      && if w.r.fighters then SpeaksAfterAnother(w, src) else src != d
    case Drop => true
  }

  /**
   A key changes its receiver exactly when a newer connection joins it, the receiver leaves, another of its connections
   sends under last_writer, a send of its connections is a fight under disable_fighters, or all are dropped.
   */
  lemma ReceiverLostIff(fighters: bool, events: seq<Event>, e: Event, k: NodeKey, d: Cid)
    requires Receiver(Run(fighters, events).r, k) == Some(d)
    ensures var w := Run(fighters, events); Receiver(Step(w, e).r, k) == Some(d) <==> !Displaces(w, e, k, d)
  {
    hide RegistryOk, LogOk, MarksOk, NoteActivity, Contends, LastLive, Remove;
    RunOk(fighters, events);
    var w := Run(fighters, events);
    ReceiverIsEnabled(w.r, k);
    match e
    case Join(c, j, flow) =>
    case Leave(c) =>
      if c == d { GoneIsNoReceiver(w.r, d, k); }
      else if c in w.r.clients { LeaveSparesReceiver(fighters, events, c, k, d); }
    case Tell(_) =>
    case Send(src, payload, disco) =>
      if Listed(w.r, src) {
        SendMovesReceiver(fighters, events, src, k);
        RouteMovesReceiver(w.r, src, payload, disco, k);
      }
    case Drop =>
  }

  lemma GoneIsNoReceiver(r: Registry, c: Cid, k: NodeKey)
    requires RegistryOk(r) && c in r.clients && r.clients[c].key == k
    ensures Receiver(Remove(r, c).1, k) != Some(c)
  {
    hide RegistryOk, Remaining, Reenable;
    RemoveKeeps(r, c);
    ReceiverIsEnabled(Remove(r, c).1, k);
    if k in r.byKey && Without(r.byKey[k].conns, c) != [] { RemainingConns(r.clients, r.byKey[k], c); }
  }

  lemma RemainingConns(clients: map<Cid, Client>, cs: ClientSet, c: Cid)
    requires Without(cs.conns, c) != []
    ensures Remaining(clients, cs, c).conns == Without(cs.conns, c)
  {
  }

  lemma RouteMovesReceiver(r: Registry, src: Cid, payload: Bytes, disco: bool, k: NodeKey)
    requires src in r.clients
    ensures Receiver(Route(r, src, payload, disco).1, k)
         == Receiver(if |payload| < KEY_LEN then r else NoteActivity(r, src), k)
  {
    hide NoteActivity;
  }

  lemma {:induction false} ReceiverStays(fighters: bool, events: seq<Event>, more: seq<Event>, k: NodeKey, d: Cid)
    requires Receiver(Run(fighters, events).r, k) == Some(d)
    requires forall i :: 0 <= i < |more| ==> !Displaces(Run(fighters, events + more[..i]), more[i], k, d)
    ensures Receiver(Run(fighters, events + more).r, k) == Some(d)
    decreases |more|
  {
    hide Displaces, Step, Receiver;
    if more == [] {
      assert events + more == events;
    } else {
      var n := |more| - 1;
      forall i | 0 <= i < n ensures !Displaces(Run(fighters, events + more[..n][..i]), more[..n][i], k, d) {
        assert more[..n][..i] == more[..i];
      }
      ReceiverStays(fighters, events, more[..n], k, d);
      assert (events + more)[..|events + more| - 1] == events + more[..n];
      ReceiverLostIff(fighters, events + more[..n], more[n], k, d);
    }
  }

  /** A newcomer receives for its key from its join on, through any run, until an event displaces it. */
  lemma JoinReceives(fighters: bool, events: seq<Event>, c: Cid, k: NodeKey, flow: FlowId, more: seq<Event>)
    requires Unused(Run(fighters, events).r, c, flow)
    requires var joined := events + [Join(c, k, flow)];
      forall i :: 0 <= i < |more| ==> !Displaces(Run(fighters, joined + more[..i]), more[i], k, c)
    ensures Receiver(Run(fighters, events + [Join(c, k, flow)] + more).r, k) == Some(c)
  {
    hide Displaces;
    var joined := events + [Join(c, k, flow)];
    assert joined[..|events|] == events;
    assert Receiver(Run(fighters, joined).r, k) == Some(c);
    ReceiverStays(fighters, joined, more, k, c);
  }

  // ---- departures and peer-gone -------------------------------------------------------------

  /** A departure announces its key exactly when it was the key's only connection. */
  lemma GoneIffLast(fighters: bool, events: seq<Event>, c: Cid)
    requires c in Run(fighters, events).r.clients
    ensures var r := Run(fighters, events).r; var k := r.clients[c].key;
      && (Remove(r, c).0 <==> Live(r, k) == {c})
      && (Remove(r, c).0 ==> k !in Remove(r, c).1.byKey)
  {
    hide LogOk, MarksOk, Agree, Remaining, Reenable;
    RunOk(fighters, events);
    var r := Run(fighters, events).r;
    var k := r.clients[c].key;
    if k in r.byKey {
      var conns := r.byKey[k].conns;
      assert SetOk(r, k, r.byKey[k]);
      WithoutOnce(conns, c);
      assert conns[0] in Live(r, k);
      if Without(conns, c) == [] {
        assert forall d :: d in conns ==> d == c;
      } else {
        assert Without(conns, c)[0] in Without(conns, c) && Without(conns, c)[0] in Live(r, k);
      }
    }
  }

  /** A registered client marked by k will hear of k's departure: k is still there, or its announcement is pending. */
  lemma MarksAreAnswered(fighters: bool, events: seq<Event>, c: Cid, k: NodeKey)
    requires Listed(Run(fighters, events).r, c) && k in Run(fighters, events).r.clients[c].received
    ensures k in Run(fighters, events).r.byKey || k in Run(fighters, events).pending
  {
    hide LogOk, RegistryOk;
    RunOk(fighters, events);
  }

  /** The announcement that answers c's mark for k. */
  ghost predicate Answers(w: World, e: Event, c: Cid, k: NodeKey) {
    e == Tell(k) && k in w.pending && Listed(w.r, c)
  }

  /** A connection's mark for k goes exactly when the announcement of k reaches that connection. */
  lemma MarkGoesIff(fighters: bool, events: seq<Event>, e: Event, c: Cid, k: NodeKey)
    requires var r := Run(fighters, events).r; c in r.clients && k in r.clients[c].received
    ensures var w := Run(fighters, events); var w' := Step(w, e);
      c in w'.r.clients && (k !in w'.r.clients[c].received <==> Answers(w, e, c, k))
  {
    hide Inv, Step, Announce;
    RunOk(fighters, events);
    var w := Run(fighters, events);
    if e.Tell? { TellClears(fighters, events, e.k, c, k); } else { OnlyTellsClear(w, e, c); }
  }

  lemma TellClears(fighters: bool, events: seq<Event>, j: NodeKey, c: Cid, k: NodeKey)
    requires c in Run(fighters, events).r.clients
    ensures var w := Run(fighters, events); var w' := Step(w, Tell(j));
      && c in w'.r.clients
      && (k in w'.r.clients[c].received
          <==> k in w.r.clients[c].received && !(j == k && k in w.pending && Listed(w.r, c)))
  {
    hide Run, Marked;
    var w := Run(fighters, events);
    AnnounceOnce(fighters, events, j);
  }

  lemma OnlyTellsClear(w: World, e: Event, c: Cid)
    requires !e.Tell? && c in w.r.clients
    ensures c in Step(w, e).r.clients && w.r.clients[c].received <= Step(w, e).r.clients[c].received
  {
    hide Step;
    if e.Send? { SendOnlyMarks(w, e, c); } else { MovesKeepMarks(w, e, c); }
  }

  lemma SendOnlyMarks(w: World, e: Event, c: Cid)
    requires e.Send? && c in w.r.clients
    ensures c in Step(w, e).r.clients && w.r.clients[c].received <= Step(w, e).r.clients[c].received
  {
    hide NoteActivity, Receiver, Contends, Live;
    NoteMarks(w.r, e.src);
  }

  lemma MovesKeepMarks(w: World, e: Event, c: Cid)
    requires (e.Join? || e.Leave? || e.Drop?) && c in w.r.clients
    ensures c in Step(w, e).r.clients && w.r.clients[c].received <= Step(w, e).r.clients[c].received
  {
    hide Remaining, LeaveLog, Without;
  }

  /**
   A client that received from k, in any run, keeps the mark of it until the announcement of k reaches that client.
   */
  lemma {:induction false} MarkLasts(fighters: bool, events: seq<Event>, more: seq<Event>, c: Cid, k: NodeKey)
    requires var r := Run(fighters, events).r; c in r.clients && k in r.clients[c].received
    requires forall i :: 0 <= i < |more| ==> !Answers(Run(fighters, events + more[..i]), more[i], c, k)
    ensures var r := Run(fighters, events + more).r; c in r.clients && k in r.clients[c].received
    decreases |more|
  {
    hide Answers, Step;
    if more == [] {
      assert events + more == events;
    } else {
      var n := |more| - 1;
      forall i | 0 <= i < n ensures !Answers(Run(fighters, events + more[..n][..i]), more[..n][i], c, k) {
        assert more[..n][..i] == more[..i];
      }
      MarkLasts(fighters, events, more[..n], c, k);
      assert (events + more)[..|events + more| - 1] == events + more[..n];
      MarkGoesIff(fighters, events + more[..n], more[n], c, k);
    }
  }

  /**
   An announcement notifies exactly the registered clients whose mark it clears, leaves other marks, and repeats
   nothing.
   */
  lemma AnnounceOnce(fighters: bool, events: seq<Event>, k: NodeKey)
    ensures var r := Run(fighters, events).r; var (targets, r') := Announce(r, k);
      && (forall c :: c in targets <==> Listed(r, c) && k in r.clients[c].received)
      && (forall c :: Listed(r, c) ==>
            && c in r'.clients && k !in r'.clients[c].received
            && (forall j :: j != k ==> (j in r'.clients[c].received <==> j in r.clients[c].received)))
      && Announce(r', k).0 == {}
  {
    hide LogOk, MarksOk, SetOk;
    RunOk(fighters, events);
    var r := Run(fighters, events).r;
    forall c | Listed(r, c) && k in r.clients[c].received ensures c in Marked(r, k) {
      assert r.byTunnel[r.clients[c].flow] == c;
    }
  }

  /** A send too short to name a destination does nothing, whoever sends it. */
  lemma ShortIsSilent(r: Registry, src: Cid, payload: Bytes, disco: bool)
    requires src in r.clients && |payload| < 32
    ensures Route(r, src, payload, disco) == ([], r)
  {
  }

  // ---- routing ------------------------------------------------------------------------------------

  /**
   A packet reaches one enabled connection of its destination, unchanged and under the sender's own key, exactly
   when there is one; the sender hears NotHere exactly when the key is absent and the packet is disco; else silence.
   */
  lemma RouteDelivers(fighters: bool, events: seq<Event>, src: Cid, dst: NodeKey, packet: Bytes, disco: bool)
    requires Listed(Run(fighters, events).r, src) && |dst| == KEY_LEN
    ensures var r := Run(fighters, events).r; var r1 := NoteActivity(r, src);
      var out := Route(r, src, dst + packet, disco).0;
      if exists c :: c in Live(r1, dst) && Enabled(r1.clients, c)
      then |out| == 1 && out[0].RecvPacket? && out[0].from == r.clients[src].key && out[0].packet == packet
           && out[0].to in Live(r1, dst) && Enabled(r1.clients, out[0].to)
           && Route(r, src, dst + packet, disco).1 == Mark(r1, out[0].to, out[0].from)
           && r.clients[src].key in Route(r, src, dst + packet, disco).1.clients[out[0].to].received
      else out == if dst !in r.byKey && disco then [PeerGone(src, dst, NotHere)] else []
  {
    hide LogOk, MarksOk, RegistryOk, NoteActivity, Records, Receiver;
    RunOk(fighters, events);
    var r := Run(fighters, events).r;
    var r1 := NoteActivity(r, src);
    NoteKeeps(r, src);
    NoteHistory(r, src);
    assert (dst + packet)[..KEY_LEN] == dst && (dst + packet)[KEY_LEN..] == packet;
    ReceiverIsEnabled(r1, dst);
    assert dst !in r1.byKey ==> Live(r1, dst) == {};
  }
}
