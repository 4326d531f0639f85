/** The registry's three tables as values, and one function for each transaction of internal/registry/registry.go.
    The registry serialises on a single connection, so every transaction is one atomic step. */
module Tables {
  import opened Wrappers
  import opened Decimals
  import opened Addresses
  import opened Pools

  type Id = string

  datatype Status = Running | Stopping

  datatype Sandbox = Sandbox(
    pid: int, tap: string, ip: string, hostPort: int, rootfsPath: string, status: Status, expiresAt: Option<int>)

  /** bakedPath is the disk path inside the Firecracker image; frozenPath is the copy that a restore starts from. */
  datatype Snapshot = Snapshot(sourceId: Id, tap: string, ip: string, frozenPath: string, bakedPath: string)

  /** ports maps (sandbox, guest port) to a host port. */
  datatype Tables = Tables(sandboxes: map<Id, Sandbox>, ports: map<(Id, int), int>, snapshots: map<Id, Snapshot>)

  datatype Error = TapPoolExhausted | InvalidIP | IPPoolExhausted | PortPoolExhausted | TapInUse | IPInUse | Constraint | NotFound

  const EMPTY := Tables(map[], map[], map[])

  // --- what is taken ---

  function UsedTaps(t: Tables): set<string> {
    set id | id in t.sandboxes && t.sandboxes[id].status.Running? :: t.sandboxes[id].tap
  }

  function UsedIPs(t: Tables): set<string> {
    set id | id in t.sandboxes && t.sandboxes[id].status.Running? :: t.sandboxes[id].ip
  }

  function UsedPrimaryPorts(t: Tables): set<int> {
    set id | id in t.sandboxes && t.sandboxes[id].status.Running? :: t.sandboxes[id].hostPort
  }

  function UsedExtraPorts(t: Tables): set<int> {
    set k | k in t.ports :: t.ports[k]
  }

  function UsedPorts(t: Tables): set<int> {
    UsedPrimaryPorts(t) + UsedExtraPorts(t)
  }

  /** The primary key and the three partial unique indexes. No index spans both tables. */
  predicate Insertable(t: Tables, id: Id, row: Sandbox) {
    && id !in t.sandboxes
    && (row.status.Running? ==> row.tap !in UsedTaps(t) && row.ip !in UsedIPs(t) && row.hostPort !in UsedPrimaryPorts(t))
  }

  // --- transactions ---

  function Inserted(t: Tables, id: Id, row: Sandbox): Result<Sandbox, Error> {
    if Insertable(t, id, row) then Ok(row) else Err(Constraint)
  }

  /** The row that Create inserts, or why it inserts none. */
  function Create(t: Tables, p: Pools, id: Id, path: string, expiresAt: Option<int>): Result<Sandbox, Error> {
    var tap := FirstFree(TapPool(p), UsedTaps(t));
    if tap.None? then Err(TapPoolExhausted) else
    if IPPool(p).None? then Err(InvalidIP) else
    var ip := FirstFree(IPPool(p).value, UsedIPs(t));
    if ip.None? then Err(IPPoolExhausted) else
    var port := FirstFree(PortPool(p), UsedPorts(t));
    if port.None? then Err(PortPoolExhausted) else
    Inserted(t, id, Sandbox(0, tap.value, ip.value, port.value, path, Running, expiresAt))
  }

  const NO_ROW := Sandbox(0, "", "", 0, "", Running, None)

  /** The row that Create inserts, if it inserts one. */
  function Allot(t: Tables, p: Pools, id: Id, path: string, expiresAt: Option<int>): Sandbox {
    var r := Create(t, p, id, path, expiresAt);
    if r.Ok? then r.value else NO_ROW
  }

  /** The row that CreateRestore inserts: tap and address are the snapshot's, only the host port is allocated. */
  function CreateRestore(t: Tables, p: Pools, id: Id, path: string, tap: string, ip: string,
                         expiresAt: Option<int>): Result<Sandbox, Error> {
    if tap in UsedTaps(t) then Err(TapInUse) else
    if ip in UsedIPs(t) then Err(IPInUse) else
    var port := FirstFree(PortPool(p), UsedPorts(t));
    if port.None? then Err(PortPoolExhausted) else
    Inserted(t, id, Sandbox(0, tap, ip, port.value, path, Running, expiresAt))
  }

  function WithSandbox(t: Tables, id: Id, row: Sandbox): Tables {
    t.(sandboxes := t.sandboxes[id := row])
  }

  function AddPort(t: Tables, p: Pools, id: Id, guestPort: int): Result<int, Error> {
    if id !in t.sandboxes then Err(NotFound) else
    if (id, guestPort) in t.ports then Ok(t.ports[(id, guestPort)]) else
    var port := FirstFree(PortPool(p), UsedPorts(t));
    if port.None? then Err(PortPoolExhausted) else Ok(port.value)
  }

  function WithPort(t: Tables, id: Id, guestPort: int, hostPort: int): Tables {
    t.(ports := t.ports[(id, guestPort) := hostPort])
  }

  function WithoutPort(t: Tables, id: Id, guestPort: int): Tables {
    t.(ports := t.ports - {(id, guestPort)})
  }

  function PortKeys(t: Tables, id: Id): set<(Id, int)> {
    set k | k in t.ports && k.0 == id
  }

  /** Destroy deletes the row and its extra ports in one transaction. */
  function WithoutSandbox(t: Tables, id: Id): Tables {
    t.(sandboxes := t.sandboxes - {id}, ports := t.ports - PortKeys(t, id))
  }

  function WithPid(t: Tables, id: Id, pid: int): Tables {
    if id in t.sandboxes then WithSandbox(t, id, t.sandboxes[id].(pid := pid)) else t
  }

  function WithExpiry(t: Tables, id: Id, expiresAt: Option<int>): Tables {
    if id in t.sandboxes then WithSandbox(t, id, t.sandboxes[id].(expiresAt := expiresAt)) else t
  }

  function WithSnapshot(t: Tables, snapId: Id, s: Snapshot): Tables {
    if snapId in t.snapshots then t else t.(snapshots := t.snapshots[snapId := s])
  }

  function WithoutSnapshot(t: Tables, snapId: Id): Tables {
    t.(snapshots := t.snapshots - {snapId})
  }

  // --- what is allotted ---

  ghost predicate TapHeld(t: Tables, tap: string) {
    exists id :: id in t.sandboxes && t.sandboxes[id].status.Running? && t.sandboxes[id].tap == tap
  }

  ghost predicate AddressHeld(t: Tables, ip: string) {
    exists id :: id in t.sandboxes && t.sandboxes[id].status.Running? && t.sandboxes[id].ip == ip
  }

  /** A running row or an extra mapping holds the host port. */
  ghost predicate PortHeld(t: Tables, port: int) {
    || (exists id :: id in t.sandboxes && t.sandboxes[id].status.Running? && t.sandboxes[id].hostPort == port)
    || exists k :: k in t.ports && t.ports[k] == port
  }

  ghost predicate LeastFreePort(t: Tables, p: Pools, port: int) {
    p.portMin <= port <= p.portMax && !PortHeld(t, port) && forall x | p.portMin <= x < port :: PortHeld(t, x)
  }

  ghost predicate PortsExhausted(t: Tables, p: Pools) {
    forall x | p.portMin <= x <= p.portMax :: PortHeld(t, x)
  }

  lemma HeldIsUsed(t: Tables)
    ensures forall tap :: tap in UsedTaps(t) <==> TapHeld(t, tap)
    ensures forall ip :: ip in UsedIPs(t) <==> AddressHeld(t, ip)
    ensures forall port :: port in UsedPorts(t) <==> PortHeld(t, port)
  {
  }

  /** A new row is the least of everything: it gets the first tap, the first address and the first host port that
      nobody holds, in the order of the pools, and the path and the deadline that were asked for. */
  lemma CreatedIsLeast(t: Tables, p: Pools, id: Id, path: string, expiresAt: Option<int>) returns (i: nat, j: nat)
    ensures var r := Create(t, p, id, path, expiresAt);
            r.Ok? ==>
              && i < p.tapMax && r.value.tap == p.tapPrefix + Print(i)
              && !TapHeld(t, r.value.tap) && (forall m: nat | m < i :: TapHeld(t, p.tapPrefix + Print(m)))
              && ParseIP(p.guestIPMin).Some? && ParseIP(p.guestIPMax).Some?
              && ParseIP(p.guestIPMin).value <= j <= ParseIP(p.guestIPMax).value && r.value.ip == PrintIP(j)
              && !AddressHeld(t, r.value.ip)
              && (forall m: nat | ParseIP(p.guestIPMin).value <= m < j :: AddressHeld(t, PrintIP(m)))
              && LeastFreePort(t, p, r.value.hostPort)
              && r.value.pid == 0 && r.value.status.Running? && r.value.rootfsPath == path && r.value.expiresAt == expiresAt
  {
    hide ParseIP, PrintIP, TapPool, IPPool, PortPool, FirstFree, UsedTaps, UsedIPs, UsedPorts, TapHeld, AddressHeld,
      PortHeld;
    HeldIsUsed(t);
    PoolNames(p);
    AddressNames(p);
    LeastPort(p, UsedPorts(t));
    i := FirstFreeLeast(TapPool(p), UsedTaps(t));
    j := 0;
    if IPPool(p).Some? {
      var k := FirstFreeLeast(IPPool(p).value, UsedIPs(t));
      j := ParseIP(p.guestIPMin).value + k;
      assert forall m: nat | ParseIP(p.guestIPMin).value <= m < j ::
          PrintIP(m) == IPPool(p).value[m - ParseIP(p.guestIPMin).value];
    }
  }

  ghost predicate TapsExhausted(t: Tables, p: Pools) {
    forall m: nat | m < p.tapMax :: TapHeld(t, p.tapPrefix + Print(m))
  }

  ghost predicate AddressesExhausted(t: Tables, p: Pools) {
    && ParseIP(p.guestIPMin).Some? && ParseIP(p.guestIPMax).Some?
    && forall m: nat | ParseIP(p.guestIPMin).value <= m <= ParseIP(p.guestIPMax).value :: AddressHeld(t, PrintIP(m))
  }

  /** Why a create is refused: the first pool that is exhausted, bounds that are no addresses, or an id that exists. */
  lemma CreateRefuses(t: Tables, p: Pools, id: Id, path: string, expiresAt: Option<int>)
    ensures var r := Create(t, p, id, path, expiresAt);
            && (r == Err(TapPoolExhausted) <==> TapsExhausted(t, p))
            && (r == Err(InvalidIP) <==> !TapsExhausted(t, p) && (ParseIP(p.guestIPMin).None? || ParseIP(p.guestIPMax).None?))
            && (r == Err(IPPoolExhausted) <==> !TapsExhausted(t, p) && AddressesExhausted(t, p))
            && (r.Err? ==> r.error in {TapPoolExhausted, InvalidIP, IPPoolExhausted, PortPoolExhausted, Constraint})
            && (r == Err(PortPoolExhausted) ==> PortsExhausted(t, p))
            && (r == Err(Constraint) ==> id in t.sandboxes)
  {
    hide ParseIP, PrintIP, TapPool, IPPool, PortPool, FirstFree, UsedTaps, UsedIPs, UsedPorts, TapHeld, AddressHeld,
      PortHeld;
    HeldIsUsed(t);
    PoolNames(p);
    AddressNames(p);
    LeastPort(p, UsedPorts(t));
    PrimaryIsUsed(t);
    var i := FirstFreeLeast(TapPool(p), UsedTaps(t));
    if IPPool(p).Some? {
      var k := FirstFreeLeast(IPPool(p).value, UsedIPs(t));
      var min := ParseIP(p.guestIPMin).value;
      assert forall m: nat | min <= m <= ParseIP(p.guestIPMax).value :: PrintIP(m) == IPPool(p).value[m - min];
      assert forall m: nat | m < |IPPool(p).value| :: IPPool(p).value[m] == PrintIP(min + m);
    }
  }

  /** A restored row has the tap and the address that were asked for, the least free host port, and the deadline. */
  lemma RestoredIsLeast(t: Tables, p: Pools, id: Id, path: string, tap: string, ip: string, expiresAt: Option<int>)
    ensures var r := CreateRestore(t, p, id, path, tap, ip, expiresAt);
            && (r == Err(TapInUse) <==> TapHeld(t, tap))
            && (r == Err(IPInUse) <==> !TapHeld(t, tap) && AddressHeld(t, ip))
            && (r == Err(PortPoolExhausted) <==> !TapHeld(t, tap) && !AddressHeld(t, ip) && PortsExhausted(t, p))
            && (r.Ok? ==> r.value == Sandbox(0, tap, ip, r.value.hostPort, path, Running, expiresAt)
                          && LeastFreePort(t, p, r.value.hostPort))
  {
    hide PortPool, FirstFree, UsedTaps, UsedIPs, UsedPorts, TapHeld, AddressHeld, PortHeld;
    HeldIsUsed(t);
    LeastPort(p, UsedPorts(t));
  }

  /** An exposure of a mapped port answers the mapping; a new one gets the least free host port, or there is none. */
  lemma AllottedIsLeast(t: Tables, p: Pools, id: Id, guestPort: int)
    ensures var r := AddPort(t, p, id, guestPort);
            if id !in t.sandboxes then r == Err(NotFound)
            else if (id, guestPort) in t.ports then r == Ok(t.ports[(id, guestPort)])
            else if PortsExhausted(t, p) then r == Err(PortPoolExhausted)
            else r.Ok? && LeastFreePort(t, p, r.value)
  {
    hide PortPool, FirstFree, UsedPorts, PortHeld;
    HeldIsUsed(t);
    LeastPort(p, UsedPorts(t));
  }

  // --- what every transaction keeps ---

  predicate Apart(a: Sandbox, b: Sandbox) {
    a.tap != b.tap && a.ip != b.ip && a.hostPort != b.hostPort
  }

  /** Taps, addresses and host ports are each held once, host ports across both tables; every extra port has its
      sandbox; and no code ever leaves the Running status. */
  ghost predicate Consistent(t: Tables) {
    && (forall id | id in t.sandboxes :: t.sandboxes[id].status.Running?)
    && (forall i, j | i in t.sandboxes && j in t.sandboxes && i != j :: Apart(t.sandboxes[i], t.sandboxes[j]))
    && (forall k | k in t.ports :: k.0 in t.sandboxes)
    && (forall k, l | k in t.ports && l in t.ports && k != l :: t.ports[k] != t.ports[l])
    && (forall i, k | i in t.sandboxes && k in t.ports :: t.sandboxes[i].hostPort != t.ports[k])
  }

  lemma CreatedIsInsertable(t: Tables, p: Pools, id: Id, path: string, expiresAt: Option<int>)
    ensures var r := Create(t, p, id, path, expiresAt);
            r.Ok? ==> r.value.status.Running? && r.value.pid == 0 && r.value.rootfsPath == path && Insertable(t, id, r.value)
  {
    hide TapPool, IPPool, PortPool, Insertable;
  }

  lemma RestoredIsInsertable(t: Tables, p: Pools, id: Id, path: string, tap: string, ip: string, expiresAt: Option<int>)
    ensures var r := CreateRestore(t, p, id, path, tap, ip, expiresAt);
            r.Ok? ==> r.value.status.Running? && r.value.rootfsPath == path && r.value.ip == ip && r.value.tap == tap
                      && Insertable(t, id, r.value)
  {
    hide PortPool, Insertable;
  }

  lemma CreateKeepsConsistent(t: Tables, p: Pools, id: Id, path: string, expiresAt: Option<int>)
    requires Consistent(t)
    ensures var r := Create(t, p, id, path, expiresAt);
            r.Ok? ==> id !in t.sandboxes && Consistent(WithSandbox(t, id, r.value))
  {
    var r := Create(t, p, id, path, expiresAt);
    if r.Ok? {
      NewRowKeepsConsistent(t, id, r.value);
    }
  }

  lemma CreateRestoreKeepsConsistent(t: Tables, p: Pools, id: Id, path: string, tap: string, ip: string, expiresAt: Option<int>)
    requires Consistent(t)
    ensures var r := CreateRestore(t, p, id, path, tap, ip, expiresAt);
            r.Ok? ==> id !in t.sandboxes && Consistent(WithSandbox(t, id, r.value))
  {
    var r := CreateRestore(t, p, id, path, tap, ip, expiresAt);
    if r.Ok? {
      NewRowKeepsConsistent(t, id, r.value);
    }
  }

  /** A row that passes the indexes is apart from every running row. */
  lemma InsertableIsApart(t: Tables, id: Id, row: Sandbox, j: Id)
    requires Insertable(t, id, row) && row.status.Running? && j in t.sandboxes && t.sandboxes[j].status.Running?
    ensures Apart(row, t.sandboxes[j]) && Apart(t.sandboxes[j], row)
  {
    assert t.sandboxes[j].tap in UsedTaps(t);
    assert t.sandboxes[j].ip in UsedIPs(t);
    assert t.sandboxes[j].hostPort in UsedPrimaryPorts(t);
  }

  /** The indexes cover one table each; what they miss is covered by the scan over both. */
  lemma NewRowKeepsConsistent(t: Tables, id: Id, row: Sandbox)
    requires Consistent(t)
    requires row.status.Running? && Insertable(t, id, row) && row.hostPort !in UsedExtraPorts(t)
    ensures Consistent(WithSandbox(t, id, row))
  {
    forall j | j in t.sandboxes ensures Apart(row, t.sandboxes[j]) && Apart(t.sandboxes[j], row) {
      InsertableIsApart(t, id, row, j);
    }
    forall k | k in t.ports ensures t.ports[k] != row.hostPort {
      assert t.ports[k] in UsedExtraPorts(t);
    }
  }

  lemma AddPortKeepsConsistent(t: Tables, p: Pools, id: Id, guestPort: int)
    requires Consistent(t)
    ensures var r := AddPort(t, p, id, guestPort);
            r.Ok? ==> id in t.sandboxes && Consistent(WithPort(t, id, guestPort, r.value))
  {
    var r := AddPort(t, p, id, guestPort);
    if r.Ok? {
      var u := WithPort(t, id, guestPort, r.value);
      if (id, guestPort) in t.ports {
        assert u.ports == t.ports;
      } else {
        forall j | j in t.sandboxes ensures t.sandboxes[j].hostPort in UsedPorts(t) {
        }
        forall k | k in t.ports ensures t.ports[k] in UsedPorts(t) {
        }
      }
    }
  }

  lemma WithoutSandboxKeepsConsistent(t: Tables, id: Id)
    requires Consistent(t)
    ensures Consistent(WithoutSandbox(t, id))
  {
  }

  /** Updating the pid or the deadline of a row touches nothing that is shared. */
  lemma UpdateKeepsConsistent(t: Tables, id: Id, pid: int, expiresAt: Option<int>)
    requires Consistent(t) && id in t.sandboxes
    ensures Consistent(WithSandbox(t, id, t.sandboxes[id].(pid := pid, expiresAt := expiresAt)))
  {
    forall j | j in t.sandboxes && j != id ensures Apart(t.sandboxes[id], t.sandboxes[j])
                                                   && Apart(t.sandboxes[j], t.sandboxes[id]) {
    }
  }

  // --- pool membership and exact admission ---

  predicate InPools(t: Tables, p: Pools) {
    && (forall id | id in t.sandboxes :: IdentityInPools(p, t.sandboxes[id].tap, t.sandboxes[id].ip)
                                         && t.sandboxes[id].hostPort in PortPool(p))
    && (forall k | k in t.ports :: t.ports[k] in PortPool(p))
    && (forall s | s in t.snapshots :: IdentityInPools(p, t.snapshots[s].tap, t.snapshots[s].ip))
  }

  predicate IdentityInPools(p: Pools, tap: string, ip: string) {
    tap in TapPool(p) && IPPool(p).Some? && ip in IPPool(p).value
  }

  ghost predicate Injective<K, V>(m: map<K, V>) {
    forall i, j | i in m && j in m && i != j :: m[i] != m[j]
  }

  lemma {:induction false} InjectiveCount<K, V>(m: map<K, V>)
    requires Injective(m)
    ensures |m.Values| == |m|
  {
    if m != map[] {
      var k :| k in m;
      var rest := m - {k};
      InjectiveCount(rest);
      forall v ensures v in m.Values <==> v in rest.Values || v == m[k] {
        if v in m.Values && v != m[k] {
          var i :| i in m && m[i] == v;
          assert i in rest && rest[i] == v;
        }
        if v in rest.Values {
          var i :| i in rest && rest[i] == v;
          assert i in m && m[i] == v;
        }
      }
      assert m[k] !in rest.Values;
      assert m.Values == rest.Values + {m[k]};
      assert m.Keys == rest.Keys + {k};
      assert |m.Keys| == |m| && |rest.Keys| == |rest|;
    } else {
      assert m.Values == {};
    }
  }

  lemma CountTaps(t: Tables)
    requires Consistent(t)
    ensures |UsedTaps(t)| == |t.sandboxes|
  {
    var m := map id | id in t.sandboxes :: t.sandboxes[id].tap;
    forall i, j | i in m && j in m && i != j ensures m[i] != m[j] {
      assert Apart(t.sandboxes[i], t.sandboxes[j]);
    }
    SameSize(t.sandboxes, m);
    InjectiveCount(m);
    assert m.Values == UsedTaps(t);
  }

  lemma CountIPs(t: Tables)
    requires Consistent(t)
    ensures |UsedIPs(t)| == |t.sandboxes|
  {
    var m := map id | id in t.sandboxes :: t.sandboxes[id].ip;
    forall i, j | i in m && j in m && i != j ensures m[i] != m[j] {
      assert Apart(t.sandboxes[i], t.sandboxes[j]);
    }
    SameSize(t.sandboxes, m);
    InjectiveCount(m);
    assert m.Values == UsedIPs(t);
  }

  /** The host ports in use number the sandboxes plus the extra ports: none is counted twice. */
  lemma CountPorts(t: Tables)
    requires Consistent(t)
    ensures |UsedPorts(t)| == |t.sandboxes| + |t.ports|
  {
    var m := map id | id in t.sandboxes :: t.sandboxes[id].hostPort;
    forall i, j | i in m && j in m && i != j ensures m[i] != m[j] {
      assert Apart(t.sandboxes[i], t.sandboxes[j]);
    }
    SameSize(t.sandboxes, m);
    InjectiveCount(m);
    InjectiveCount(t.ports);
    assert m.Values == UsedPrimaryPorts(t);
    assert t.ports.Values == UsedExtraPorts(t);
    assert UsedPrimaryPorts(t) !! UsedExtraPorts(t);
  }

  lemma SameSize<K, V, W>(m: map<K, V>, n: map<K, W>)
    requires m.Keys == n.Keys
    ensures |m| == |n|
  {
    assert |m.Keys| == |m| && |n.Keys| == |n|;
  }

  /** Every taken name comes from its pool. */
  lemma UsedInPools(t: Tables, p: Pools)
    requires InPools(t, p)
    ensures UsedTaps(t) <= Elems(TapPool(p))
    ensures UsedPorts(t) <= Elems(PortPool(p))
    ensures IPPool(p).Some? ==> UsedIPs(t) <= Elems(IPPool(p).value)
  {
    hide PrintIP, ParseIP, TapPool, IPPool, PortPool;
  }

  lemma RoomForTap(t: Tables, p: Pools)
    requires Consistent(t) && InPools(t, p)
    ensures FirstFree(TapPool(p), UsedTaps(t)).Some? <==> |t.sandboxes| < |TapPool(p)|
    ensures |t.sandboxes| <= |TapPool(p)|
  {
    CountTaps(t);
    UsedInPools(t, p);
    TapPoolDistinct(p);
    DistinctCount(TapPool(p));
    SubsetCount(UsedTaps(t), Elems(TapPool(p)));
    FreeIffRoom(TapPool(p), UsedTaps(t));
  }

  lemma RoomForIP(t: Tables, p: Pools)
    requires Consistent(t) && InPools(t, p)
    ensures IPPool(p).Some? ==> (FirstFree(IPPool(p).value, UsedIPs(t)).Some? <==> |t.sandboxes| < |IPPool(p).value|)
    ensures IPPool(p).Some? ==> |t.sandboxes| <= |IPPool(p).value|
  {
    hide PrintIP, ParseIP, IPPool;
    if IPPool(p).Some? {
      CountIPs(t);
      UsedInPools(t, p);
      IPPoolDistinct(p);
      DistinctCount(IPPool(p).value);
      SubsetCount(UsedIPs(t), Elems(IPPool(p).value));
      FreeIffRoom(IPPool(p).value, UsedIPs(t));
    }
  }

  lemma RoomForPort(t: Tables, p: Pools)
    requires Consistent(t) && InPools(t, p)
    ensures FirstFree(PortPool(p), UsedPorts(t)).Some? <==> |t.sandboxes| + |t.ports| < |PortPool(p)|
    ensures |t.sandboxes| + |t.ports| <= |PortPool(p)|
  {
    CountPorts(t);
    UsedInPools(t, p);
    DistinctCount(PortPool(p));
    SubsetCount(UsedPorts(t), Elems(PortPool(p)));
    FreeIffRoom(PortPool(p), UsedPorts(t));
  }

  /** The pools have room for n more sandboxes. */
  predicate Room(t: Tables, p: Pools, n: int) {
    && |t.sandboxes| + n <= |TapPool(p)| && IPPool(p).Some? && |t.sandboxes| + n <= |IPPool(p).value|
    && |t.sandboxes| + |t.ports| + n <= |PortPool(p)|
  }

  /** Create succeeds if and only if each of the three pools has room, the port pool being shared with the extra ports. */
  lemma ExactAdmission(t: Tables, p: Pools, id: Id, path: string, expiresAt: Option<int>)
    requires Consistent(t) && InPools(t, p) && id !in t.sandboxes
    ensures Create(t, p, id, path, expiresAt).Ok? <==>
            && |t.sandboxes| < |TapPool(p)|
            && IPPool(p).Some? && |t.sandboxes| < |IPPool(p).value|
            && |t.sandboxes| + |t.ports| < |PortPool(p)|
  {
    hide PrintIP, ParseIP, TapPool, IPPool, PortPool;
    RoomForTap(t, p);
    RoomForIP(t, p);
    RoomForPort(t, p);
    forall x | x !in UsedPorts(t) ensures x !in UsedPrimaryPorts(t) {
    }
  }

  /** A restore gets its row if and only if no sandbox holds the snapshot's tap, none its address, and a host port is
      free: the source and every earlier restore of the snapshot must be gone. */
  lemma RestoreAdmission(t: Tables, p: Pools, id: Id, path: string, tap: string, ip: string, expiresAt: Option<int>)
    requires Consistent(t) && InPools(t, p) && id !in t.sandboxes
    ensures CreateRestore(t, p, id, path, tap, ip, expiresAt).Ok? <==>
            && (forall j | j in t.sandboxes :: t.sandboxes[j].tap != tap && t.sandboxes[j].ip != ip)
            && |t.sandboxes| + |t.ports| < |PortPool(p)|
  {
    hide PrintIP, ParseIP, PortPool, InPools, FirstFree, UsedTaps, UsedIPs, UsedPorts;
    RoomForPort(t, p);
    HeldNames(t, tap, ip);
    PrimaryIsUsed(t);
    var port := FirstFree(PortPool(p), UsedPorts(t));
    assert port.Some? ==> port.value !in UsedPorts(t);
    hide Consistent, UsedPrimaryPorts;
  }

  /** An exposure of a new port succeeds if and only if a port is left beside those of the sandboxes and the mappings. */
  lemma PortAdmission(t: Tables, p: Pools, id: Id, guestPort: int)
    requires Consistent(t) && InPools(t, p) && id in t.sandboxes
    ensures AddPort(t, p, id, guestPort).Ok? <==> (id, guestPort) in t.ports || |t.sandboxes| + |t.ports| < |PortPool(p)|
    ensures AddPort(t, p, id, guestPort).Err? ==> AddPort(t, p, id, guestPort) == Err(PortPoolExhausted)
  {
    hide PortPool, InPools, Consistent, FirstFree, UsedPorts;
    RoomForPort(t, p);
  }

  lemma HeldNames(t: Tables, tap: string, ip: string)
    requires Consistent(t)
    ensures tap !in UsedTaps(t) <==> forall j | j in t.sandboxes :: t.sandboxes[j].tap != tap
    ensures ip !in UsedIPs(t) <==> forall j | j in t.sandboxes :: t.sandboxes[j].ip != ip
  {
  }

  lemma PrimaryIsUsed(t: Tables)
    ensures forall x | x !in UsedPorts(t) :: x !in UsedPrimaryPorts(t)
  {
  }

  /** The number of sandboxes never exceeds the advertised capacity; and with no extra ports there is room for one
      more exactly while the capacity is not reached. */
  lemma CapacityBound(t: Tables, p: Pools, id: Id, path: string, expiresAt: Option<int>)
    requires Consistent(t) && InPools(t, p) && IPBoundsOrdered(p)
    ensures |t.sandboxes| <= Slots(p)
    ensures t.ports == map[] && id !in t.sandboxes ==> (Create(t, p, id, path, expiresAt).Ok? <==> |t.sandboxes| < Slots(p))
  {
    hide PrintIP, ParseIP, TapPool, IPPool, PortPool, Slots, Create, IPBoundsOrdered, Consistent, InPools;
    SlotsIsSmallestPool(p);
    RoomForTap(t, p);
    RoomForIP(t, p);
    RoomForPort(t, p);
    if id !in t.sandboxes {
      ExactAdmission(t, p, id, path, expiresAt);
    }
  }
}
