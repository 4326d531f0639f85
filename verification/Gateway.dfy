/** The gateway object (internal/gateway/gateway.go): two maps under a mutex, so that each method is one step. Maps are
    walked in no particular order. */
module Gateway {
  import opened Wrappers
  import opened Tables
  import opened Routing

  /** A live host with room, and none has more. */
  ghost predicate IsBest(f: Fleet, now: int, ttl: int, hostId: HostId) {
    && hostId in f.hosts && Alive(f.hosts[hostId], now, ttl) && Free(f.hosts[hostId]) > 0
    && forall h | h in f.hosts && Alive(f.hosts[h], now, ttl) :: Free(f.hosts[h]) <= Free(f.hosts[hostId])
  }

  class Gateway {
    const ttl: int
    var hosts: map<HostId, Host>
    var route: map<Id, HostId>

    function State(): Fleet
      reads this
    {
      Fleet(hosts, route)
    }

    constructor (ttl: int)
      ensures this.ttl == ttl && State() == UNKNOWN
    {
      this.ttl := ttl;
      hosts, route := map[], map[];
    }

    method HandleRegister(hb: Heartbeat, now: int) returns (ok: bool)
      modifies this
      ensures ok == Acceptable(hb) && State() == Registered(old(State()), hb, now)
    {
      if hb.hostId == "" || hb.addr == "" {
        return false;
      }
      hosts := hosts[hb.hostId := Host(hb.addr, hb.token, hb.slotsTotal, hb.slotsUsed, now)];
      DropRoutes(hb.hostId);
      ghost var dropped := route;
      var i := 0;
      while i < |hb.sandboxIds|
        invariant 0 <= i <= |hb.sandboxIds|
        invariant route == Routed(dropped, hb.sandboxIds[..i], hb.hostId)
        invariant hosts == old(hosts)[hb.hostId := Host(hb.addr, hb.token, hb.slotsTotal, hb.slotsUsed, now)]
      {
        route := route[hb.sandboxIds[i] := hb.hostId];
        assert hb.sandboxIds[..i + 1][..i] == hb.sandboxIds[..i];
        i := i + 1;
      }
      assert hb.sandboxIds[..i] == hb.sandboxIds;
      return true;
    }

    method DropRoutes(hostId: HostId)
      modifies this`route
      ensures route == old(route) - RoutesOf(old(route), hostId)
    {
      var todo := route.Keys;
      while todo != {}
        invariant todo <= old(route).Keys
        invariant route == old(route) - (RoutesOf(old(route), hostId) - todo)
        decreases todo
      {
        var s :| s in todo;
        ghost var before := todo;
        todo := todo - {s};
        if s in route && route[s] == hostId {
          assert RoutesOf(old(route), hostId) - todo == RoutesOf(old(route), hostId) - before + {s};
          route := route - {s};
        } else {
          assert RoutesOf(old(route), hostId) - todo == RoutesOf(old(route), hostId) - before;
        }
      }
    }

    /** The least loaded live host, or none when no live host has room. */
    method PickHost(now: int) returns (best: Option<HostId>)
      ensures best.Some? ==> IsBest(State(), now, ttl, best.value)
      ensures best.None? <==> forall h | h in hosts && Alive(hosts[h], now, ttl) :: Free(hosts[h]) == 0
    {
      best := None;
      var todo := hosts.Keys;
      while todo != {}
        invariant todo <= hosts.Keys
        invariant best.Some? ==> best.value in hosts && Alive(hosts[best.value], now, ttl) && Free(hosts[best.value]) > 0
        invariant forall h | h in hosts && h !in todo && Alive(hosts[h], now, ttl) ::
                    Free(hosts[h]) <= if best.Some? then Free(hosts[best.value]) else 0
        decreases todo
      {
        var h :| h in todo;
        todo := todo - {h};
        if !Alive(hosts[h], now, ttl) || Free(hosts[h]) <= 0 {
          continue;
        }
        if best.None? || Free(hosts[h]) > Free(hosts[best.value]) {
          best := Some(h);
        }
      }
    }

    /** After the create on the chosen host succeeded. */
    method RecordCreate(hostId: HostId, id: Id)
      modifies this
      ensures State() == Recorded(old(State()), hostId, id)
      ensures hostId in old(hosts) ==> Target(State(), id) == Some(hostId) && Lookup(State(), id).Some?
      ensures forall other | other != id :: Target(State(), other) == Target(old(State()), other)
    {
      route := route[id := hostId];
      if hostId in hosts {
        hosts := hosts[hostId := hosts[hostId].(slotsUsed := hosts[hostId].slotsUsed + 1)];
      }
    }

    /** The target of an id-scoped request, or none: 404. */
    method FindHost(id: Id) returns (target: Option<Host>)
      ensures target == Lookup(State(), id)
    {
      var hostId := if id in route then route[id] else "";
      if hostId !in hosts {
        return None;
      }
      return Some(hosts[hostId]);
    }

    method Prune(now: int)
      modifies this
      ensures State() == Pruned(old(State()), now, ttl)
      ensures forall h :: h in hosts <==> h in old(hosts) && now - old(hosts)[h].lastSeen <= ttl
    {
      var todo := hosts.Keys;
      ghost var stale := Stale(State(), now, ttl);
      while todo != {}
        invariant todo <= old(hosts).Keys
        invariant hosts == old(hosts) - (stale - todo)
        invariant route == old(route) - set s | s in old(route) && old(route)[s] in stale - todo
        decreases todo
      {
        var h :| h in todo;
        ghost var before := todo;
        todo := todo - {h};
        assert h in hosts && hosts[h] == old(hosts)[h];
        if !Alive(hosts[h], now, ttl) {
          assert stale - todo == stale - before + {h};
          hosts := hosts - {h};
          DropRoutes(h);
        } else {
          assert stale - todo == stale - before;
        }
      }
    }
  }
}
