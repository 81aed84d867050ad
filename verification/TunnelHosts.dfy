/** The bounded record of tunnel hosts kept for fresh replays (sidescale/derp/tunnel.go). */
module TunnelHosts {
  import opened Common

  const MAX_RETAINED := 256

  datatype Record = Record(hosts: map<string, string>, order: seq<string>)

  datatype Registration = Registration(id: string, host: string)

  function Retain(r: Record, id: string, host: string): Record {
    if id in r.hosts then r.(hosts := r.hosts[id := host])
    else if |r.hosts| >= MAX_RETAINED && |r.order| > 0 then
      Record((r.hosts - {r.order[0]})[id := host], r.order[1..] + [id])
    else Record(r.hosts[id := host], r.order + [id])
  }

  class Handler {
    var tunnelHosts: map<string, string>
    var tunnelHostOrder: seq<string>

    function View(): Record
      reads this
    {
      Record(tunnelHosts, tunnelHostOrder)
    }

    constructor ()
      ensures View() == Record(map[], [])
    {
      tunnelHosts, tunnelHostOrder := map[], [];
    }

    method RetainTunnelHost(id: string, host: string)
      modifies this
      ensures View() == Retain(old(View()), id, host)
    {
      if id !in tunnelHosts {
        if |tunnelHosts| >= MAX_RETAINED && |tunnelHostOrder| > 0 {
          var oldest := tunnelHostOrder[0];
          tunnelHostOrder := tunnelHostOrder[1..];
          tunnelHosts := tunnelHosts - {oldest};
        }
        tunnelHostOrder := tunnelHostOrder + [id];
      }
      tunnelHosts := tunnelHosts[id := host];
    }

    method RetainedTunnelHost(id: string) returns (host: Option<string>)
      ensures host == if id in View().hosts then Some(View().hosts[id]) else None
    {
      return if id in tunnelHosts then Some(tunnelHosts[id]) else None;
    }
  }

  // ---- whole histories -------------------------------------------------------------------

  function Run(history: seq<Registration>): Record {
    if history == [] then Record(map[], [])
    else
      var last := history[|history| - 1];
      Retain(Run(history[..|history| - 1]), last.id, last.host)
  }

  /** The record that forgets nothing. */
  function Unbounded(history: seq<Registration>): map<string, string> {
    if history == [] then map[]
    else
      var last := history[|history| - 1];
      Unbounded(history[..|history| - 1])[last.id := last.host]
  }

  /** Every admission of an id that was not resident, in order; an id evicted and registered again is admitted again. */
  function Admissions(history: seq<Registration>): seq<string> {
    if history == [] then []
    else
      var front, last := history[..|history| - 1], history[|history| - 1];
      Admissions(front) + if last.id in Run(front).hosts then [] else [last.id]
  }

  ghost predicate Sound(r: Record) {
    && (forall id :: id in r.hosts <==> id in r.order)
    && NoDuplicates(r.order) && |r.order| <= MAX_RETAINED && |r.hosts| == |r.order|
  }

  lemma RetainKeeps(r: Record, id: string, host: string)
    requires Sound(r)
    ensures Sound(Retain(r, id, host))
  {
    hide Sound;
    if id in r.hosts {
      Rehosted(r, id, host);
    } else if |r.hosts| >= MAX_RETAINED && |r.order| > 0 {
      Evicted(r);
      Admitted(Record(r.hosts - {r.order[0]}, r.order[1..]), id, host);
    } else {
      RoomLeft(r);
      Admitted(r, id, host);
    }
  }

  lemma Rehosted(r: Record, id: string, host: string)
    requires Sound(r) && id in r.hosts
    ensures Sound(r.(hosts := r.hosts[id := host]))
  {
    assert r.hosts[id := host].Keys == r.hosts.Keys;
  }

  lemma RoomLeft(r: Record)
    requires Sound(r) && (|r.hosts| < MAX_RETAINED || r.order == [])
    ensures |r.order| < MAX_RETAINED
  {
  }

  lemma Shrunk(m: map<string, string>, id: string)
    requires id in m
    ensures |m - {id}| == |m| - 1
  {
    assert (m - {id}).Keys == m.Keys - {id};
  }

  lemma Evicted(r: Record)
    requires Sound(r) && r.order != []
    ensures Sound(Record(r.hosts - {r.order[0]}, r.order[1..])) && |r.order[1..]| < MAX_RETAINED
  {
    var oldest, rest := r.order[0], r.order[1..];
    assert r.order == [oldest] + rest && oldest !in rest;
    Shrunk(r.hosts, oldest);
  }

  lemma Admitted(r: Record, id: string, host: string)
    requires Sound(r) && id !in r.hosts && |r.order| < MAX_RETAINED
    ensures Sound(Record(r.hosts[id := host], r.order + [id]))
  {
    Grown(r.hosts, id, host);
  }

  lemma Grown(m: map<string, string>, id: string, host: string)
    requires id !in m
    ensures |m[id := host]| == |m| + 1
  {
    assert m[id := host].Keys == m.Keys + {id};
  }

  /** Keys and order hold the same ids, once each, at most 256 of them. */
  lemma {:induction false} RecordIsSound(history: seq<Registration>)
    ensures Sound(Run(history)) && |Run(history).hosts| == |Run(history).order| <= 256
    decreases |history|
  {
    if history != [] {
      var front, last := history[..|history| - 1], history[|history| - 1];
      RecordIsSound(front);
      RetainKeeps(Run(front), last.id, last.host);
    }
  }

  lemma OrderAfter(r: Record, id: string, host: string)
    requires Sound(r)
    ensures Retain(r, id, host).order ==
      if id in r.hosts then r.order else if |r.order| == MAX_RETAINED then r.order[1..] + [id] else r.order + [id]
    ensures |r.order| <= MAX_RETAINED
  {
  }

  /** The last 256 of s. */
  function Recent(s: seq<string>): (r: seq<string>)
    ensures |s| <= MAX_RETAINED ==> r == s
  {
    if |s| <= MAX_RETAINED then s else s[|s| - MAX_RETAINED..]
  }

  lemma RecentIs(s: seq<string>)
    ensures Recent(s) == if |s| <= 256 then s else s[|s| - 256..]
  {
  }

  lemma RecentShifts(s: seq<string>, id: string)
    ensures Recent(s + [id]) == if |Recent(s)| == MAX_RETAINED then Recent(s)[1..] + [id] else Recent(s) + [id]
  {
  }

  lemma {:induction false} RecentRemain(history: seq<Registration>)
    ensures Run(history).order == Recent(Admissions(history))
    decreases |history|
  {
    hide Retain, Sound, Recent;
    if history != [] {
      var front, last := history[..|history| - 1], history[|history| - 1];
      RecentRemain(front);
      RecordIsSound(front);
      OrderAfter(Run(front), last.id, last.host);
      RecentShifts(Admissions(front), last.id);
      assert Admissions(front) + [] == Admissions(front);
    }
  }

  /** The residents are always the last 256 admissions, oldest first: eviction is first in, first out. */
  lemma OldestLeaveFirst(history: seq<Registration>)
    ensures var a := Admissions(history); Run(history).order == if |a| <= 256 then a else a[|a| - 256..]
  {
    hide Run, Admissions, Recent;
    RecentRemain(history);
    RecentIs(Admissions(history));
  }

  /** Whatever is resident has the host last registered for it. */
  lemma {:induction false} ResidentsAreCurrent(history: seq<Registration>)
    ensures forall id :: id in Run(history).hosts ==>
        id in Unbounded(history) && Run(history).hosts[id] == Unbounded(history)[id]
    decreases |history|
  {
    if history != [] { ResidentsAreCurrent(history[..|history| - 1]); }
  }

  /** Nothing is forgotten until a 257th id is admitted. */
  lemma {:induction false} ForgetsNothingEarly(history: seq<Registration>)
    requires |Admissions(history)| <= 256
    ensures Run(history).hosts == Unbounded(history)
    decreases |history|
  {
    if history != [] {
      var front := history[..|history| - 1];
      ForgetsNothingEarly(front);
      RecentRemain(front);
      RecordIsSound(front);
    }
  }
}
