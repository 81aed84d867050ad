/** Marks come and go with the frames themselves: who will hear that a key is gone is who received from it. */
module RelayMarks {
  import opened Common
  import opened Relay
  import opened RelayLog
  import opened RelaySteps
  import opened RelayTheorems

  /** Event e writes to c a packet from k. */
  ghost predicate Delivers(w: World, e: Event, c: Cid, k: NodeKey) {
    && e.Send? && Listed(w.r, e.src)
    && exists o :: o in Route(w.r, e.src, e.payload, e.disco).0 && o.RecvPacket? && o.to == c && o.from == k
  }

  /**
   Over every event of every run, a connection holds a mark for k after the event exactly when the event delivers to it
   a packet from k, or it held one and the event is not the announcement of k reaching it.
   */
  lemma MarkAfter(fighters: bool, events: seq<Event>, e: Event, c: Cid, k: NodeKey)
    requires c in Step(Run(fighters, events), e).r.clients
    ensures var w := Run(fighters, events); var w' := Step(w, e);
      k in w'.r.clients[c].received <==>
        Delivers(w, e, c, k) || (c in w.r.clients && k in w.r.clients[c].received && !Answers(w, e, c, k))
  {
    hide Inv, Step;
    var w := Run(fighters, events);
    RunOk(fighters, events);
    if e.Tell? { TellNamesNobody(w, e, c); } else if !e.Send? { MovesKeep(w, e, c); }
    if e.Tell? { TellClears(fighters, events, e.k, c, k); }
    if e.Send? { SendMarksAll(w, e, c, k); }
  }

  lemma TellNamesNobody(w: World, e: Event, c: Cid)
    requires e.Tell? && c in Step(w, e).r.clients
    ensures c in w.r.clients
  {
    hide Marked;
  }

  /** Joins, departures and drops leave every mark alone, and a newcomer has none. */
  lemma MovesKeep(w: World, e: Event, c: Cid)
    requires (e.Join? || e.Leave? || e.Drop?) && c in Step(w, e).r.clients
    ensures Step(w, e).r.clients[c].received == if c in w.r.clients then w.r.clients[c].received else {}
  {
    hide Remaining, LeaveLog, Without;
  }

  lemma SendMarksAll(w: World, e: Event, c: Cid, k: NodeKey)
    requires Inv(w) && e.Send? && c in Step(w, e).r.clients
    ensures c in w.r.clients
    ensures k in Step(w, e).r.clients[c].received <==> Delivers(w, e, c, k) || k in w.r.clients[c].received
  {
    hide Inv, Step;
    SendOutcome(w, e);
    if Listed(w.r, e.src) { RouteMarks(w.r, e.src, e.payload, e.disco, c, k); }
  }

  lemma SendOutcome(w: World, e: Event)
    requires e.Send?
    ensures Step(w, e).r == if Listed(w.r, e.src) then Route(w.r, e.src, e.payload, e.disco).1 else w.r
  {
    hide Route, Contends;
  }

  lemma RouteMarks(r: Registry, src: Cid, payload: Bytes, disco: bool, c: Cid, k: NodeKey)
    requires src in r.clients
    ensures var (out, r') := Route(r, src, payload, disco);
      && r'.clients.Keys == r.clients.Keys
      && (c in r'.clients ==>
            (k in r'.clients[c].received <==>
              || (exists o :: o in out && o.RecvPacket? && o.to == c && o.from == k)
              || k in r.clients[c].received))
  {
    hide NoteActivity, Receiver;
    NoteMarks(r, src);
    var out := Route(r, src, payload, disco).0;
    if out != [] { assert out[0] in out; }
  }

  /**
   A connection that receives from k and is still registered when k is announced gone hears of it, in every run: unless
   an announcement of k has reached it since.
   */
  lemma ReceiversHear(fighters: bool, events: seq<Event>, e: Event, more: seq<Event>, c: Cid, k: NodeKey)
    requires Delivers(Run(fighters, events), e, c, k)
    requires forall i :: 0 <= i < |more| ==> !Answers(Run(fighters, events + [e] + more[..i]), more[i], c, k)
    requires Listed(Run(fighters, events + [e] + more).r, c)
    ensures var w := Run(fighters, events + [e] + more);
      && c in Announce(w.r, k).0
      && (k in w.r.byKey || k in w.pending)
  {
    hide Step, Answers, Announce, Delivers, Inv;
    var now := events + [e];
    assert now[..|now| - 1] == events;
    DeliveredKnown(fighters, events, e, c, k);
    MarkAfter(fighters, events, e, c, k);
    MarkLasts(fighters, now, more, c, k);
    AnnounceOnce(fighters, now + more, k);
    MarksAreAnswered(fighters, now + more, c, k);
  }

  /** Packets are written to known connections. */
  lemma DeliveredKnown(fighters: bool, events: seq<Event>, e: Event, c: Cid, k: NodeKey)
    requires Delivers(Run(fighters, events), e, c, k)
    ensures c in Step(Run(fighters, events), e).r.clients
  {
    hide Step, Inv, RegistryOk, Route, Listed;
    var w := Run(fighters, events);
    RunOk(fighters, events);
    SendOutcome(w, e);
    RouteNamesKnown(w.r, e.src, e.payload, e.disco);
    ListedKnown(w.r, e.src);
    RouteMarks(w.r, e.src, e.payload, e.disco, c, k);
  }

  lemma RouteNamesKnown(r: Registry, src: Cid, payload: Bytes, disco: bool)
    requires RegistryOk(r) && Listed(r, src)
    ensures forall o :: o in Route(r, src, payload, disco).0 ==> o.to in r.clients
  {
    hide RegistryOk, NoteActivity, Receiver, Records;
    NoteKeeps(r, src);
    NoteMarks(r, src);
    if |payload| >= KEY_LEN { ReceiverIsEnabled(NoteActivity(r, src), payload[..KEY_LEN]); }
  }
}
