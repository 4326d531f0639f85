/** The registry object (internal/registry/registry.go): three mutable tables and the methods that update them,
    each proved against the transaction it performs on the tables' values. */
module Registry {
  import opened Wrappers
  import opened Addresses
  import opened Pools
  import opened Tables
  import opened History
  import T = Tables

  datatype PortMapping = PortMapping(guestPort: int, hostPort: int)

  /** The scan over addresses ends: the range stops short of 255.255.255.255. */
  predicate ScanEnds(p: Pools) {
    ParseIP(p.guestIPMax).Some? ==> ParseIP(p.guestIPMax).value < TWO32 - 1
  }

  method PickFreeTap(used: set<string>, p: Pools) returns (r: Option<string>)
    ensures r == FirstFree(TapPool(p), used)
  {
    var i := 0;
    while i < p.tapMax
      invariant 0 <= i <= |TapPool(p)|
      invariant forall j | 0 <= j < i :: TapPool(p)[j] in used
    {
      var name := TapName(p.tapPrefix, i);
      FirstFreeAt(TapPool(p), used, i);
      if name !in used {
        return Some(name);
      }
      i := i + 1;
    }
    FirstFreeAt(TapPool(p), used, |TapPool(p)|);
    return None;
  }

  /** The scan over addresses ends: it runs past a range that stops short of the last address, or it finds one that
      is not in use, be it in the range or, when the counter has wrapped, anywhere. */
  ghost predicate ScanStops(p: Pools, used: set<string>) {
    ScanEnds(p) || exists n: nat | n < TWO32 :: PrintIP(n) !in used
  }

  /** And it does what it is meant to: it does not wrap. */
  ghost predicate ScanStaysInRange(p: Pools, used: set<string>) {
    ScanEnds(p) || (ParseIP(p.guestIPMin).Some? && ParseIP(p.guestIPMax).Some?
                    ==> FreeInRange(ParseIP(p.guestIPMin).value, ParseIP(p.guestIPMax).value, used))
  }

  lemma ScanStopsSomewhere(min: nat, max: nat, used: set<string>, n: nat)
    requires min < TWO32 && n < TWO32 && (PrintIP(n) !in used || n > max)
    ensures exists k: nat :: ScanStopsAt(min, max, used, k)
  {
    hide PrintIP;
    var k: nat := if n >= min then n - min else n + TWO32 - min;
    assert ScanAt(min, k) == n;
    ScanStopsBefore(min, max, used, k);
  }

  /** Some place up to k is the first at which the scan stops. */
  lemma {:induction false} ScanStopsBefore(min: nat, max: nat, used: set<string>, k: nat)
    requires ScanAt(min, k) > max || PrintIP(ScanAt(min, k)) !in used
    ensures exists j: nat :: ScanStopsAt(min, max, used, j)
  {
    hide PrintIP, ScanAt;
    if !ScanStopsAt(min, max, used, k) {
      var j: nat :| j < k && (ScanAt(min, j) > max || PrintIP(ScanAt(min, j)) !in used);
      ScanStopsBefore(min, max, used, j);
    }
  }

  lemma ScanStopsOnce(min: nat, max: nat, used: set<string>, k: nat, j: nat)
    requires ScanStopsAt(min, max, used, k) && ScanStopsAt(min, max, used, j)
    ensures k == j
  {
    hide PrintIP, ScanAt;
  }

  lemma ScanCounts(min: nat, k: nat)
    ensures min < TWO32 ==> ScanAt(min, 0) == min
    ensures ScanAt(min, k + 1) == (ScanAt(min, k) + 1) % TWO32
  {
  }

  /** Where the scan stops decides what it returns. */
  lemma ScanReturns(p: Pools, used: set<string>, k: nat)
    requires IPPool(p).Some?
    requires ScanStopsAt(ParseIP(p.guestIPMin).value, ParseIP(p.guestIPMax).value, used, k)
    ensures var r := ScanResult(ParseIP(p.guestIPMin).value, ParseIP(p.guestIPMax).value, k);
            if ScanStaysInRange(p, used) then r == FirstFree(IPPool(p).value, used)
            else r.Some? && r.value !in used && r.value !in IPPool(p).value
  {
    hide PrintIP, ParseIP;
    var min, max := ParseIP(p.guestIPMin).value, ParseIP(p.guestIPMax).value;
    PrintParse(p.guestIPMin);
    PrintParse(p.guestIPMax);
    ScanExact(min, max, used);
    if ScanStaysInRange(p, used) {
      var j: nat :| ScanStopsAt(min, max, used, j) && ScanResult(min, max, j) == FirstFree(IPRange(min, max), used);
      ScanStopsOnce(min, max, used, k, j);
    } else {
      ScanWraps(min, used, k);
      forall i | 0 <= i < |IPRange(min, max)| ensures IPRange(min, max)[i] != PrintIP(ScanAt(min, k)) {
        PrintIPInjective(min + i, ScanAt(min, k));
      }
    }
  }

  /** On a full range that ends at 255.255.255.255 the counter wraps, and the result is an address outside the range. */
  method PickFreeIP(used: set<string>, p: Pools) returns (r: Result<string, Error>)
    requires ScanStops(p, used)
    ensures IPPool(p).None? ==> r == Err(InvalidIP)
    ensures IPPool(p).Some? && ScanStaysInRange(p, used) ==> match FirstFree(IPPool(p).value, used)
                                                             case None => r == Err(IPPoolExhausted)
                                                             case Some(ip) => r == Ok(ip)
    ensures IPPool(p).Some? && !ScanStaysInRange(p, used) ==> r.Ok? && r.value !in used && r.value !in IPPool(p).value
  {
    hide PrintIP, ParseIP, ScanStops, ScanStaysInRange, FirstFree, ScanAt, IPRange;
    var minIP, maxIP := ParseIP(p.guestIPMin), ParseIP(p.guestIPMax);
    if minIP.None? || maxIP.None? {
      return Err(InvalidIP);
    }
    ghost var stop := WhereScanStops(p, used);
    var n := minIP.value;
    ghost var k: nat := 0;
    ScanCounts(n, 0);
    while n <= maxIP.value
      invariant k <= stop && n == ScanAt(minIP.value, k)
      decreases stop - k
    {
      var ip := PrintIP(n);
      if ip !in used {
        assert k == stop;
        ScanReturns(p, used, k);
        return Ok(ip);
      }
      ScanCounts(minIP.value, k);
      n, k := (n + 1) % TWO32, k + 1;
    }
    assert k == stop;
    ScanReturns(p, used, k);
    return Err(IPPoolExhausted);
  }

  lemma WhereScanStops(p: Pools, used: set<string>) returns (k: nat)
    requires IPPool(p).Some? && ScanStops(p, used)
    ensures ScanStopsAt(ParseIP(p.guestIPMin).value, ParseIP(p.guestIPMax).value, used, k)
    ensures ParseIP(p.guestIPMin).value < TWO32
  {
    hide PrintIP, ParseIP;
    var min, max := ParseIP(p.guestIPMin).value, ParseIP(p.guestIPMax).value;
    PrintParse(p.guestIPMin);
    if ScanEnds(p) {
      ScanStopsSomewhere(min, max, used, max + 1);
    } else {
      var n: nat :| n < TWO32 && PrintIP(n) !in used;
      ScanStopsSomewhere(min, max, used, n);
    }
    k :| ScanStopsAt(min, max, used, k);
  }

  method PickFreePort(used: set<int>, p: Pools) returns (r: Option<int>)
    ensures r == FirstFree(PortPool(p), used)
  {
    var port := p.portMin;
    while port <= p.portMax
      invariant p.portMin <= port
      invariant port - p.portMin <= |PortPool(p)|
      invariant forall j | 0 <= j < port - p.portMin :: PortPool(p)[j] in used
    {
      FirstFreeAt(PortPool(p), used, port - p.portMin);
      if port !in used {
        return Some(port);
      }
      port := port + 1;
    }
    FirstFreeAt(PortPool(p), used, |PortPool(p)|);
    return None;
  }

  class Registry {
    const pools: Pools
    var sandboxes: map<Id, Sandbox>
    var sandboxPorts: map<(Id, int), int>
    var snapshots: map<Id, Snapshot>

    function State(): Tables
      reads this
    {
      Tables(sandboxes, sandboxPorts, snapshots)
    }

    constructor (pools: Pools)
      ensures this.pools == pools && State() == EMPTY
    {
      this.pools := pools;
      sandboxes, sandboxPorts, snapshots := map[], map[], map[];
    }

    method LoadUsed() returns (taps: set<string>, ips: set<string>, ports: set<int>)
      ensures taps == UsedTaps(State()) && ips == UsedIPs(State()) && ports == UsedPorts(State())
    {
      taps, ips, ports := {}, {}, {};
      var rows := sandboxes.Keys;
      while rows != {}
        invariant rows <= sandboxes.Keys
        invariant taps == set id | id in sandboxes && id !in rows && sandboxes[id].status.Running? :: sandboxes[id].tap
        invariant ips == set id | id in sandboxes && id !in rows && sandboxes[id].status.Running? :: sandboxes[id].ip
        invariant ports == set id | id in sandboxes && id !in rows && sandboxes[id].status.Running? :: sandboxes[id].hostPort
        decreases rows
      {
        var id :| id in rows;
        rows := rows - {id};
        if sandboxes[id].status.Running? {
          taps, ips, ports := taps + {sandboxes[id].tap}, ips + {sandboxes[id].ip}, ports + {sandboxes[id].hostPort};
        }
      }
      ghost var primary := ports;
      var extra := sandboxPorts.Keys;
      while extra != {}
        invariant extra <= sandboxPorts.Keys
        invariant ports == primary + set k | k in sandboxPorts && k !in extra :: sandboxPorts[k]
        decreases extra
      {
        var k :| k in extra;
        extra := extra - {k};
        ports := ports + {sandboxPorts[k]};
      }
    }

    method Create(id: Id, rootfsPath: string, expiresAt: Option<int>) returns (r: Result<Sandbox, Error>)
      requires ScanStops(pools, UsedIPs(State()))
      modifies this
      ensures ScanStaysInRange(pools, old(UsedIPs(State()))) ==> r == T.Create(old(State()), pools, id, rootfsPath, expiresAt)
      ensures !ScanStaysInRange(pools, old(UsedIPs(State()))) && IPPool(pools).Some? && r.Ok? ==>
                r.value.ip !in IPPool(pools).value
      ensures r.Ok? ==> r.value.rootfsPath == rootfsPath && r.value.expiresAt == expiresAt && r.value.pid == 0
      ensures State() == if r.Ok? then WithSandbox(old(State()), id, r.value) else old(State())
      ensures ScanStaysInRange(pools, old(UsedIPs(State()))) && rootfsPath == RootfsPath(id) ==>
                State() == Commit(Book(old(State()), {}), pools, OpCreate(id, expiresAt)).t
    {
      hide PrintIP, ParseIP, TapPool, IPPool, PortPool;
      var taps, ips, ports := LoadUsed();
      var tap := PickFreeTap(taps, pools);
      if tap.None? {
        return Err(TapPoolExhausted);
      }
      var ip := PickFreeIP(ips, pools);
      if ip.Err? {
        return Err(ip.error);
      }
      var port := PickFreePort(ports, pools);
      if port.None? {
        return Err(PortPoolExhausted);
      }
      r := Insert(id, Sandbox(0, tap.value, ip.value, port.value, rootfsPath, Running, expiresAt));
    }

    method CreateRestore(id: Id, rootfsPath: string, tap: string, ip: string, expiresAt: Option<int>)
      returns (r: Result<Sandbox, Error>)
      modifies this
      ensures r == T.CreateRestore(old(State()), pools, id, rootfsPath, tap, ip, expiresAt)
      ensures State() == if r.Ok? then WithSandbox(old(State()), id, r.value) else old(State())
      ensures forall snapId | snapId in snapshots ::
                var snap := snapshots[snapId];
                snap.bakedPath == rootfsPath && snap.tap == tap && snap.ip == ip ==>
                  State() == Commit(Book(old(State()), {}), pools, OpRestore(id, snapId, expiresAt)).t
    {
      var taps, ips, ports := LoadUsed();
      if tap in taps {
        return Err(TapInUse);
      }
      if ip in ips {
        return Err(IPInUse);
      }
      var port := PickFreePort(ports, pools);
      if port.None? {
        return Err(PortPoolExhausted);
      }
      r := Insert(id, Sandbox(0, tap, ip, port.value, rootfsPath, Running, expiresAt));
    }

    /** The INSERT statement: it fails on the primary key or on one of the partial unique indexes. */
    method Insert(id: Id, row: Sandbox) returns (r: Result<Sandbox, Error>)
      modifies this
      ensures r == Inserted(old(State()), id, row)
      ensures sandboxPorts == old(sandboxPorts) && snapshots == old(snapshots)
      ensures sandboxes == if r.Ok? then old(sandboxes)[id := row] else old(sandboxes)
      ensures State() == if r.Ok? then WithSandbox(old(State()), id, row) else old(State())
    {
      if id in sandboxes {
        return Err(Constraint);
      }
      var taps, ips, _ := LoadUsed();
      if row.status.Running?
         && (row.tap in taps || row.ip in ips
             || exists i | i in sandboxes :: sandboxes[i].status.Running? && sandboxes[i].hostPort == row.hostPort)
      {
        return Err(Constraint);
      }
      sandboxes := sandboxes[id := row];
      return Ok(row);
    }

    method FinishStart(id: Id, pid: int) returns (r: Result<(), Error>)
      modifies this
      ensures r == if id in old(sandboxes) then Ok(()) else Err(NotFound)
      ensures State() == WithPid(old(State()), id, pid)
      ensures State() == Commit(Book(old(State()), {}), pools, OpFinishStart(id, pid)).t
      ensures r.Ok? ==> id in sandboxes && sandboxes == old(sandboxes)[id := old(sandboxes)[id].(pid := pid)]
    {
      if id !in sandboxes {
        return Err(NotFound);
      }
      sandboxes := sandboxes[id := sandboxes[id].(pid := pid)];
      return Ok(());
    }

    method SetExpiry(id: Id, expiresAt: Option<int>) returns (r: Result<(), Error>)
      modifies this
      ensures r == if id in old(sandboxes) then Ok(()) else Err(NotFound)
      ensures State() == WithExpiry(old(State()), id, expiresAt)
      ensures State() == Commit(Book(old(State()), {}), pools, OpSetExpiry(id, expiresAt)).t
      ensures r.Ok? ==> id in sandboxes && sandboxes == old(sandboxes)[id := old(sandboxes)[id].(expiresAt := expiresAt)]
    {
      if id !in sandboxes {
        return Err(NotFound);
      }
      sandboxes := sandboxes[id := sandboxes[id].(expiresAt := expiresAt)];
      return Ok(());
    }

    method Destroy(id: Id) returns (r: Result<(), Error>)
      modifies this
      ensures r == if id in old(sandboxes) then Ok(()) else Err(NotFound)
      ensures State() == if id in old(sandboxes) then WithoutSandbox(old(State()), id) else old(State())
      ensures State() == Commit(Book(old(State()), {}), pools, OpDestroy(id)).t
      ensures sandboxes == old(sandboxes) - {id} && snapshots == old(snapshots)
      ensures r.Ok? ==> forall k :: k in sandboxPorts <==> k in old(sandboxPorts) && k.0 != id
    {
      if id !in sandboxes {
        return Err(NotFound);
      }
      sandboxPorts := sandboxPorts - PortKeys(State(), id);
      sandboxes := sandboxes - {id};
      return Ok(());
    }

    method AddPort(id: Id, guestPort: int) returns (r: Result<int, Error>)
      modifies this
      ensures r == T.AddPort(old(State()), pools, id, guestPort)
      ensures State() == if r.Ok? then WithPort(old(State()), id, guestPort, r.value) else old(State())
      ensures State() == Commit(Book(old(State()), {}), pools, OpAddPort(id, guestPort)).t
      ensures r.Ok? ==> sandboxPorts == old(sandboxPorts)[(id, guestPort) := r.value]
    {
      if id !in sandboxes {
        return Err(NotFound);
      }
      if (id, guestPort) in sandboxPorts {
        assert sandboxPorts == sandboxPorts[(id, guestPort) := sandboxPorts[(id, guestPort)]];
        return Ok(sandboxPorts[(id, guestPort)]);
      }
      var _, _, ports := LoadUsed();
      var port := PickFreePort(ports, pools);
      if port.None? {
        return Err(PortPoolExhausted);
      }
      sandboxPorts := sandboxPorts[(id, guestPort) := port.value];
      return Ok(port.value);
    }

    method DeletePort(id: Id, guestPort: int)
      modifies this
      ensures State() == WithoutPort(old(State()), id, guestPort)
      ensures State() == Commit(Book(old(State()), {}), pools, OpDeletePort(id, guestPort)).t
      ensures sandboxPorts == old(sandboxPorts) - {(id, guestPort)}
    {
      sandboxPorts := sandboxPorts - {(id, guestPort)};
    }

    /** The extra mappings of a sandbox, ordered by guest port: all of them, each once. */
    method Ports(id: Id) returns (out: seq<PortMapping>)
      ensures forall i, j | 0 <= i < j < |out| :: out[i].guestPort < out[j].guestPort
      ensures forall i | 0 <= i < |out| :: (id, out[i].guestPort) in sandboxPorts
                                           && sandboxPorts[(id, out[i].guestPort)] == out[i].hostPort
      ensures forall gp | (id, gp) in sandboxPorts :: PortMapping(gp, sandboxPorts[(id, gp)]) in out
    {
      out := [];
      var todo := PortKeys(State(), id);
      while todo != {}
        invariant todo <= PortKeys(State(), id)
        invariant forall i, j | 0 <= i < j < |out| :: out[i].guestPort < out[j].guestPort
        invariant forall i | 0 <= i < |out| :: (id, out[i].guestPort) in sandboxPorts
                                               && sandboxPorts[(id, out[i].guestPort)] == out[i].hostPort
        invariant forall i, k | 0 <= i < |out| && k in todo :: out[i].guestPort < k.1
        invariant forall gp | (id, gp) in sandboxPorts && (id, gp) !in todo :: PortMapping(gp, sandboxPorts[(id, gp)]) in out
        decreases todo
      {
        var k := LeastKey(todo, id);
        out := out + [PortMapping(k.1, sandboxPorts[k])];
        todo := todo - {k};
      }
    }

    method CreateSnapshot(snapId: Id, s: Snapshot) returns (r: Result<(), Error>)
      modifies this
      ensures r == if snapId in old(snapshots) then Err(Constraint) else Ok(())
      ensures State() == WithSnapshot(old(State()), snapId, s)
      ensures State() == Commit(Book(old(State()), {}), pools, OpRecordSnapshot(snapId, s)).t
      ensures r.Ok? ==> snapshots == old(snapshots)[snapId := s]
    {
      if snapId in snapshots {
        return Err(Constraint);
      }
      snapshots := snapshots[snapId := s];
      return Ok(());
    }

    method DeleteSnapshot(snapId: Id) returns (r: Result<(), Error>)
      modifies this
      ensures r == if snapId in old(snapshots) then Ok(()) else Err(NotFound)
      ensures State() == WithoutSnapshot(old(State()), snapId)
      ensures State() == Commit(Book(old(State()), {}), pools, OpDeleteSnapshot(snapId)).t
      ensures snapshots == old(snapshots) - {snapId}
    {
      if snapId !in snapshots {
        return Err(NotFound);
      }
      snapshots := snapshots - {snapId};
      return Ok(());
    }

    /** The running sandboxes whose deadline, in whole seconds, lies before now. */
    method Expired(nowUnix: int) returns (ids: set<Id>)
      ensures ids == set id | id in sandboxes && sandboxes[id].status.Running? && sandboxes[id].expiresAt.Some?
                              && sandboxes[id].expiresAt.value < nowUnix
    {
      ids := {};
      var rows := sandboxes.Keys;
      while rows != {}
        invariant rows <= sandboxes.Keys
        invariant ids == set id | id in sandboxes && id !in rows && sandboxes[id].status.Running?
                                  && sandboxes[id].expiresAt.Some? && sandboxes[id].expiresAt.value < nowUnix
        decreases rows
      {
        var id :| id in rows;
        rows := rows - {id};
        if sandboxes[id].status.Running? && sandboxes[id].expiresAt.Some? && sandboxes[id].expiresAt.value < nowUnix {
          ids := ids + {id};
        }
      }
    }
  }

  method LeastKey(keys: set<(Id, int)>, ghost id: Id) returns (least: (Id, int))
    requires keys != {} && forall k | k in keys :: k.0 == id
    ensures least in keys && forall k | k in keys && k != least :: least.1 < k.1
  {
    least :| least in keys;
    var rest := keys - {least};
    while rest != {}
      invariant rest <= keys && least in keys && least !in rest
      invariant forall k | k in keys && k !in rest && k != least :: least.1 < k.1
      decreases rest
    {
      var k :| k in rest;
      rest := rest - {k};
      if k.1 < least.1 {
        least := k;
      }
    }
  }
}
