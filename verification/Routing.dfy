/** The gateway's soft state (internal/gateway/gateway.go) as a value: the hosts it has heard of and the routes it has
    derived from their heartbeats. */
module Routing {
  import opened Wrappers
  import opened Tables

  type HostId = string

  datatype Host = Host(addr: string, token: string, slotsTotal: int, slotsUsed: int, lastSeen: int)

  datatype Heartbeat = Heartbeat(hostId: HostId, addr: string, token: string, slotsTotal: int, slotsUsed: int,
                                 sandboxIds: seq<Id>)

  datatype Fleet = Fleet(hosts: map<HostId, Host>, route: map<Id, HostId>)

  const UNKNOWN := Fleet(map[], map[])

  function Free(h: Host): int {
    if h.slotsTotal <= h.slotsUsed then 0 else h.slotsTotal - h.slotsUsed
  }

  predicate Alive(h: Host, now: int, ttl: int) {
    now - h.lastSeen <= ttl
  }

  function RoutesOf(route: map<Id, HostId>, hostId: HostId): set<Id> {
    set s | s in route && route[s] == hostId
  }

  function Routed(route: map<Id, HostId>, ids: seq<Id>, hostId: HostId): map<Id, HostId> {
    if ids == [] then route else Routed(route, ids[..|ids| - 1], hostId)[ids[|ids| - 1] := hostId]
  }

  predicate Acceptable(hb: Heartbeat) {
    hb.hostId != "" && hb.addr != ""
  }

  /** A heartbeat replaces what was known of its host and all routes to it. */
  function Registered(f: Fleet, hb: Heartbeat, now: int): Fleet {
    if Acceptable(hb) then
      Fleet(f.hosts[hb.hostId := Host(hb.addr, hb.token, hb.slotsTotal, hb.slotsUsed, now)],
            Routed(f.route - RoutesOf(f.route, hb.hostId), hb.sandboxIds, hb.hostId))
    else f
  }

  /** A create that succeeded on a host is recorded at once, even when the host has been dropped in the meantime. */
  function Recorded(f: Fleet, hostId: HostId, id: Id): Fleet {
    Fleet(if hostId in f.hosts then f.hosts[hostId := f.hosts[hostId].(slotsUsed := f.hosts[hostId].slotsUsed + 1)] else f.hosts,
          f.route[id := hostId])
  }

  function Stale(f: Fleet, now: int, ttl: int): set<HostId> {
    set h | h in f.hosts && !Alive(f.hosts[h], now, ttl)
  }

  function Pruned(f: Fleet, now: int, ttl: int): Fleet {
    var stale := Stale(f, now, ttl);
    Fleet(f.hosts - stale, f.route - set s | s in f.route && f.route[s] in stale)
  }

  /** The host that a request for a sandbox is sent to. A missing route reads as the empty host id. */
  function Lookup(f: Fleet, id: Id): Option<Host> {
    var hostId := if id in f.route then f.route[id] else "";
    if hostId in f.hosts then Some(f.hosts[hostId]) else None
  }

  /** No host has the empty id. */
  predicate Named(f: Fleet) {
    "" !in f.hosts
  }

  lemma {:induction false} RoutedAt(route: map<Id, HostId>, ids: seq<Id>, hostId: HostId, id: Id)
    ensures id in Routed(route, ids, hostId) <==> id in ids || id in route
    ensures id in Routed(route, ids, hostId) ==> Routed(route, ids, hostId)[id] == if id in ids then hostId else route[id]
  {
    if ids != [] {
      RoutedAt(route, ids[..|ids| - 1], hostId, id);
      assert ids == ids[..|ids| - 1] + [ids[|ids| - 1]];
    }
  }

  // --- convergence ---

  datatype Report = Report(heartbeat: Heartbeat, at: int)

  function Heard(f: Fleet, reports: seq<Report>): Fleet {
    if reports == [] then f
    else
      var last := reports[|reports| - 1];
      Registered(Heard(f, reports[..|reports| - 1]), last.heartbeat, last.at)
  }

  /** The last heartbeat of a host. */
  function Latest(reports: seq<Report>, hostId: HostId): Option<Report> {
    if reports == [] then None
    else if reports[|reports| - 1].heartbeat.hostId == hostId then Some(reports[|reports| - 1])
    else Latest(reports[..|reports| - 1], hostId)
  }

  /** A sandbox lives on one host: heartbeats of different hosts never name the same sandbox. */
  predicate Disjoint(reports: seq<Report>) {
    forall r, s | r in reports && s in reports && r.heartbeat.hostId != s.heartbeat.hostId ::
      forall id | id in r.heartbeat.sandboxIds :: id !in s.heartbeat.sandboxIds
  }

  predicate WellFormed(reports: seq<Report>) {
    Disjoint(reports) && forall r | r in reports :: Acceptable(r.heartbeat)
  }

  lemma {:induction false} LatestIsReport(reports: seq<Report>, hostId: HostId)
    ensures match Latest(reports, hostId)
            case None => forall r | r in reports :: r.heartbeat.hostId != hostId
            case Some(r) => r in reports && r.heartbeat.hostId == hostId
  {
    if reports != [] {
      LatestIsReport(reports[..|reports| - 1], hostId);
      assert reports == reports[..|reports| - 1] + [reports[|reports| - 1]];
    }
  }

  /** The routes to a host that has reported are exactly the sandboxes of its last heartbeat, and the gateway knows it
      by that heartbeat. */
  lemma {:induction false} HeardRoutes(f: Fleet, reports: seq<Report>, hostId: HostId, id: Id)
    requires WellFormed(reports)
    ensures var g := Heard(f, reports);
            match Latest(reports, hostId)
            case None =>
              && (hostId in g.hosts <==> hostId in f.hosts)
              && (hostId in g.hosts ==> g.hosts[hostId] == f.hosts[hostId])
            case Some(r) =>
              && hostId in g.hosts
              && g.hosts[hostId] == Host(r.heartbeat.addr, r.heartbeat.token, r.heartbeat.slotsTotal, r.heartbeat.slotsUsed, r.at)
              && (id in g.route && g.route[id] == hostId <==> id in r.heartbeat.sandboxIds)
    decreases |reports|
  {
    if reports != [] {
      var last, front := reports[|reports| - 1], reports[..|reports| - 1];
      assert forall r | r in front :: r in reports;
      assert last in reports;
      HeardRoutes(f, front, hostId, id);
      LatestIsReport(front, hostId);
      var g := Heard(f, front);
      RoutedAt(g.route - RoutesOf(g.route, last.heartbeat.hostId), last.heartbeat.sandboxIds, last.heartbeat.hostId, id);
    }
  }

  /** Convergence. Let the gateway know no host but some of those that report, a restarted gateway knowing none; its
      routes may be anything. Once every one of them has reported, in any order and any number of times, a sandbox is
      found if and only if some host named it in its last heartbeat, and then at that host's address. */
  lemma Convergence(f: Fleet, reports: seq<Report>, id: Id)
    requires WellFormed(reports) && Named(f)
    requires forall h | h in f.hosts :: exists r :: r in reports && r.heartbeat.hostId == h
    ensures forall r | r in reports && Latest(reports, r.heartbeat.hostId) == Some(r) && id in r.heartbeat.sandboxIds ::
              && Lookup(Heard(f, reports), id).Some?
              && Lookup(Heard(f, reports), id).value.addr == r.heartbeat.addr
              && Lookup(Heard(f, reports), id).value.token == r.heartbeat.token
    ensures Lookup(Heard(f, reports), id).Some? ==>
              exists r :: r in reports && Latest(reports, r.heartbeat.hostId) == Some(r) && id in r.heartbeat.sandboxIds
  {
    var g := Heard(f, reports);
    forall r | r in reports && Latest(reports, r.heartbeat.hostId) == Some(r) && id in r.heartbeat.sandboxIds
      ensures Lookup(g, id).Some? && Lookup(g, id).value.addr == r.heartbeat.addr
      ensures Lookup(g, id).value.token == r.heartbeat.token
    {
      HeardRoutes(f, reports, r.heartbeat.hostId, id);
    }
    if Lookup(g, id).Some? {
      var h := if id in g.route then g.route[id] else "";
      HeardRoutes(f, reports, h, id);
      LatestIsReport(reports, h);
      assert Latest(reports, h).Some? && id in Latest(reports, h).value.heartbeat.sandboxIds;
    }
  }

  /** Two gateways that heard the same last heartbeats, in whatever order and whatever they believed before, send every
      request to the same address. */
  lemma OrderDoesNotMatter(f: Fleet, g: Fleet, reports: seq<Report>, others: seq<Report>, id: Id)
    requires WellFormed(reports) && WellFormed(others) && Named(f) && Named(g)
    requires forall h :: Latest(reports, h) == Latest(others, h)
    requires forall h | h in f.hosts || h in g.hosts :: Latest(reports, h).Some?
    ensures Lookup(Heard(f, reports), id) == Lookup(Heard(g, others), id)
  {
    var x, y := Heard(f, reports), Heard(g, others);
    forall h ensures h in x.hosts && id in x.route && x.route[id] == h <==> h in y.hosts && id in y.route && y.route[id] == h {
      HeardRoutes(f, reports, h, id);
      HeardRoutes(g, others, h, id);
    }
    forall h ensures h in x.hosts <==> h in y.hosts {
      HeardRoutes(f, reports, h, id);
      HeardRoutes(g, others, h, id);
    }
    forall h | h in x.hosts ensures x.hosts[h] == y.hosts[h] {
      HeardRoutes(f, reports, h, id);
      HeardRoutes(g, others, h, id);
    }
    HeardRoutes(f, reports, "", id);
    LatestIsReport(reports, "");
    assert Named(x) && x.hosts == y.hosts;
    AlikeLookup(x, y, id);
  }

  // --- events ---

  datatype Event = Beat(heartbeat: Heartbeat, at: int) | Create(hostId: HostId, id: Id) | Prune(now: int)

  function Next(f: Fleet, ttl: int, e: Event): Fleet {
    match e
    case Beat(hb, at) => Registered(f, hb, at)
    case Create(hostId, id) => Recorded(f, hostId, id)
    case Prune(now) => Pruned(f, now, ttl)
  }

  function After(f: Fleet, ttl: int, es: seq<Event>): Fleet
    decreases |es|
  {
    if es == [] then f else After(Next(f, ttl, es[0]), ttl, es[1..])
  }

  // --- what is recorded is found ---

  /** Who a request for the sandbox goes to. */
  function Target(f: Fleet, id: Id): Option<HostId> {
    if id in f.route && f.route[id] in f.hosts then Some(f.route[id]) else None
  }

  /** After a create on a known host its sandbox is found there, the host has a slot less, and every other sandbox is
      found where it was found before. */
  lemma RecordedIsFound(f: Fleet, hostId: HostId, id: Id)
    requires hostId in f.hosts
    ensures var g, h := Recorded(f, hostId, id), f.hosts[hostId];
            && Target(g, id) == Some(hostId)
            && Lookup(g, id) == Some(Host(h.addr, h.token, h.slotsTotal, h.slotsUsed + 1, h.lastSeen))
            && (forall other | other != id :: Target(g, other) == Target(f, other))
            && (forall other | other != hostId :: other in g.hosts <==> other in f.hosts)
            && (forall other | other in f.hosts && other != hostId :: g.hosts[other] == f.hosts[other])
  {
  }

  /** The event leaves the route alone: no other create of the sandbox; no heartbeat that takes it from the host, by
      silence of its own host or by a claim of another; and no prune after the host's time to live. */
  predicate Confirms(f: Fleet, ttl: int, e: Event, hostId: HostId, id: Id) {
    match e
    case Create(_, other) => other != id
    case Beat(hb, _) => Acceptable(hb) ==> (hb.hostId == hostId <==> id in hb.sandboxIds)
    case Prune(now) => hostId in f.hosts ==> now - f.hosts[hostId].lastSeen <= ttl
  }

  predicate ConfirmsAll(f: Fleet, ttl: int, es: seq<Event>, hostId: HostId, id: Id)
    decreases |es|
  {
    es == [] || (Confirms(f, ttl, es[0], hostId, id) && ConfirmsAll(Next(f, ttl, es[0]), ttl, es[1..], hostId, id))
  }

  lemma TargetStays(f: Fleet, ttl: int, e: Event, hostId: HostId, id: Id)
    requires Target(f, id) == Some(hostId) && Confirms(f, ttl, e, hostId, id)
    ensures Target(Next(f, ttl, e), id) == Some(hostId)
    ensures e.Create? ==> Next(f, ttl, e).hosts[hostId].addr == f.hosts[hostId].addr
  {
    if e.Beat? && Acceptable(e.heartbeat) {
      RoutedAt(f.route - RoutesOf(f.route, e.heartbeat.hostId), e.heartbeat.sandboxIds, e.heartbeat.hostId, id);
    }
  }

  /** And so it stays, whatever happens that does not take the route away. */
  lemma {:induction false} RecordedStaysFound(f: Fleet, ttl: int, es: seq<Event>, hostId: HostId, id: Id)
    requires Target(f, id) == Some(hostId) && ConfirmsAll(f, ttl, es, hostId, id)
    ensures Target(After(f, ttl, es), id) == Some(hostId) && Lookup(After(f, ttl, es), id).Some?
    decreases |es|
  {
    if es != [] {
      TargetStays(f, ttl, es[0], hostId, id);
      RecordedStaysFound(Next(f, ttl, es[0]), ttl, es[1..], hostId, id);
    }
  }

  /** A prune drops exactly the hosts that have been silent for longer than their time to live, and their routes: a
      request goes where it went, unless its host is dropped. */
  lemma PrunedExactly(f: Fleet, now: int, ttl: int, hostId: HostId, id: Id)
    ensures var g := Pruned(f, now, ttl);
            && (hostId in g.hosts <==> hostId in f.hosts && now - f.hosts[hostId].lastSeen <= ttl)
            && (hostId in g.hosts ==> g.hosts[hostId] == f.hosts[hostId])
            && Target(g, id) == (if Target(f, id).Some? && now - f.hosts[f.route[id]].lastSeen > ttl then None else Target(f, id))
            && (id in g.route <==> id in f.route && (f.route[id] in f.hosts ==> now - f.hosts[f.route[id]].lastSeen <= ttl))
            && (id in g.route ==> g.route[id] == f.route[id])
  {
  }

  // --- dangling routes ---

  /** The same hosts, and the same routes to them: only routes to unknown hosts may differ. */
  ghost predicate Alike(f: Fleet, g: Fleet) {
    && f.hosts == g.hosts && Named(f)
    && forall id, h | h in f.hosts :: (id in f.route && f.route[id] == h) <==> (id in g.route && g.route[id] == h)
  }

  lemma AlikeLookup(f: Fleet, g: Fleet, id: Id)
    requires f.hosts == g.hosts && Named(f)
    requires forall h | h in f.hosts :: (id in f.route && f.route[id] == h) <==> (id in g.route && g.route[id] == h)
    ensures Lookup(f, id) == Lookup(g, id)
  {
  }

  lemma NextAlike(f: Fleet, g: Fleet, ttl: int, e: Event)
    requires Alike(f, g)
    ensures Alike(Next(f, ttl, e), Next(g, ttl, e))
  {
    match e
    case Beat(hb, at) =>
      if Acceptable(hb) {
        BeatAlike(f, g, hb, at);
      }
    case Create(hostId, id) =>
    case Prune(now) =>
  }

  lemma BeatAlike(f: Fleet, g: Fleet, hb: Heartbeat, at: int)
    requires Alike(f, g) && Acceptable(hb)
    ensures Alike(Registered(f, hb, at), Registered(g, hb, at))
  {
    var x, y := Registered(f, hb, at), Registered(g, hb, at);
    forall id, h | h in x.hosts ensures (id in x.route && x.route[id] == h) <==> (id in y.route && y.route[id] == h) {
      RoutedAt(f.route - RoutesOf(f.route, hb.hostId), hb.sandboxIds, hb.hostId, id);
      RoutedAt(g.route - RoutesOf(g.route, hb.hostId), hb.sandboxIds, hb.hostId, id);
    }
  }

  /** A create can race a prune and leave a route to a host that is gone. Such routes are never observable: whatever
      happens next, even when that host comes back, every request is sent where it would be sent without them. */
  lemma {:induction false} DanglingRoutesUnobservable(f: Fleet, g: Fleet, ttl: int, es: seq<Event>, id: Id)
    requires Alike(f, g)
    ensures Alike(After(f, ttl, es), After(g, ttl, es))
    ensures Lookup(After(f, ttl, es), id) == Lookup(After(g, ttl, es), id)
    decreases |es|
  {
    if es == [] {
      AlikeLookup(f, g, id);
    } else {
      NextAlike(f, g, ttl, es[0]);
      DanglingRoutesUnobservable(Next(f, ttl, es[0]), Next(g, ttl, es[0]), ttl, es[1..], id);
    }
  }

  /** The race itself: recording a create on a dropped host changes nothing that a later request can see, unless the
      sandbox had a route to a known host before, which a fresh id has not. */
  lemma CreateRacesPrune(f: Fleet, hostId: HostId, id: Id)
    requires Named(f) && hostId !in f.hosts && Lookup(f, id).None?
    ensures Alike(f, Recorded(f, hostId, id))
  {
  }
}
