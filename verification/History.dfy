/** Whole runs of registry transactions, in any order and with no assumption on which sandboxes they overlap:
    what stays unique although no index enforces it. */
module History {
  import opened Wrappers
  import opened Addresses
  import opened Pools
  import opened Tables

  const ROOTFS_DIR := "/var/lib/sandbox/rootfs"

  /** The standard place of a sandbox's disk. */
  function RootfsPath(id: Id): string {
    ROOTFS_DIR + "/" + id + ".ext4"
  }

  lemma RootfsPathInjective(i: Id, j: Id)
    ensures RootfsPath(i) == RootfsPath(j) ==> i == j
  {
    var n := |ROOTFS_DIR| + 1;
    assert RootfsPath(i)[n..|RootfsPath(i)| - 5] == i;
    assert RootfsPath(j)[n..|RootfsPath(j)| - 5] == j;
  }

  /** A disk path together with the network identity of the guest that lives on it. */
  datatype Disk = Disk(path: string, tap: string, ip: string)

  function DiskOf(row: Sandbox): Disk {
    Disk(row.rootfsPath, row.tap, row.ip)
  }

  function BakedDisk(s: Snapshot): Disk {
    Disk(s.bakedPath, s.tap, s.ip)
  }

  /** seen is every disk that a row has ever named. */
  datatype Book = Book(t: Tables, seen: set<Disk>)

  datatype Transaction =
    | OpCreate(id: Id, expiresAt: Option<int>)
    | OpRestore(id: Id, snapId: Id, expiresAt: Option<int>)
    | OpFinishStart(id: Id, pid: int)
    | OpSetExpiry(id: Id, expiresAt: Option<int>)
    | OpDestroy(id: Id)
    | OpAddPort(id: Id, guestPort: int)
    | OpDeletePort(id: Id, guestPort: int)
    | OpRecordSnapshot(snapId: Id, snapshot: Snapshot)
    | OpDeleteSnapshot(snapId: Id)

  /** A fresh UUID: no row has ever named its disk path. */
  ghost predicate FreshDisk(seen: set<Disk>, id: Id) {
    forall d | d in seen :: d.path != RootfsPath(id)
  }

  /** What the server guarantees about its calls. A snapshot records fields that the server read from a row
      earlier; the row may have changed or gone since. */
  ghost predicate Allowed(b: Book, op: Transaction) {
    match op
    case OpCreate(id, _) => FreshDisk(b.seen, id)
    case OpRestore(_, snapId, _) => snapId in b.t.snapshots
    case OpRecordSnapshot(_, s) => BakedDisk(s) in b.seen
    case _ => true
  }

  function WithRow(b: Book, id: Id, r: Result<Sandbox, Error>): Book {
    if r.Ok? then Book(WithSandbox(b.t, id, r.value), b.seen + {DiskOf(r.value)}) else b
  }

  function Restored(t: Tables, p: Pools, id: Id, s: Snapshot, expiresAt: Option<int>): Result<Sandbox, Error> {
    CreateRestore(t, p, id, s.bakedPath, s.tap, s.ip, expiresAt)
  }

  function Commit(b: Book, p: Pools, op: Transaction): Book {
    match op
    case OpCreate(id, e) => WithRow(b, id, Create(b.t, p, id, RootfsPath(id), e))
    case OpRestore(id, snapId, e) =>
      if snapId in b.t.snapshots then WithRow(b, id, Restored(b.t, p, id, b.t.snapshots[snapId], e)) else b
    case OpFinishStart(id, pid) => b.(t := WithPid(b.t, id, pid))
    case OpSetExpiry(id, e) => b.(t := WithExpiry(b.t, id, e))
    case OpDestroy(id) => if id in b.t.sandboxes then b.(t := WithoutSandbox(b.t, id)) else b
    case OpAddPort(id, gp) =>
      var r := AddPort(b.t, p, id, gp);
      if r.Ok? then b.(t := WithPort(b.t, id, gp, r.value)) else b
    case OpDeletePort(id, gp) => b.(t := WithoutPort(b.t, id, gp))
    case OpRecordSnapshot(snapId, s) => b.(t := WithSnapshot(b.t, snapId, s))
    case OpDeleteSnapshot(snapId) => b.(t := WithoutSnapshot(b.t, snapId))
  }

  /** A path always stands for the same tap and address. */
  ghost predicate Functional(seen: set<Disk>) {
    forall d, e | d in seen && e in seen && d.path == e.path :: d == e
  }

  ghost predicate Recorded(b: Book) {
    && (forall id | id in b.t.sandboxes :: DiskOf(b.t.sandboxes[id]) in b.seen)
    && (forall s | s in b.t.snapshots :: BakedDisk(b.t.snapshots[s]) in b.seen)
  }

  ghost predicate SeenInPools(seen: set<Disk>, p: Pools) {
    forall d | d in seen :: IdentityInPools(p, d.tap, d.ip)
  }

  ghost predicate BookInv(b: Book, p: Pools) {
    Consistent(b.t) && InPools(b.t, p) && Functional(b.seen) && Recorded(b) && SeenInPools(b.seen, p)
  }

  lemma NewRowKeepsBook(b: Book, p: Pools, id: Id, r: Result<Sandbox, Error>)
    requires BookInv(b, p)
    requires r.Ok? ==> Consistent(WithSandbox(b.t, id, r.value))
    requires r.Ok? ==> IdentityInPools(p, r.value.tap, r.value.ip) && r.value.hostPort in PortPool(p)
    requires r.Ok? ==> forall d | d in b.seen && d.path == r.value.rootfsPath :: d == DiskOf(r.value)
    ensures BookInv(WithRow(b, id, r), p)
  {
    hide IdentityInPools, PortPool, Consistent;
  }

  lemma CreateKeepsBook(b: Book, p: Pools, id: Id, e: Option<int>)
    requires BookInv(b, p) && FreshDisk(b.seen, id)
    ensures BookInv(WithRow(b, id, Create(b.t, p, id, RootfsPath(id), e)), p)
  {
    hide TapPool, IPPool, PortPool, Consistent;
    var r := Create(b.t, p, id, RootfsPath(id), e);
    CreateKeepsConsistent(b.t, p, id, RootfsPath(id), e);
    NewRowKeepsBook(b, p, id, r);
  }

  lemma RestoreKeepsBook(b: Book, p: Pools, id: Id, s: Snapshot, e: Option<int>)
    requires BookInv(b, p) && BakedDisk(s) in b.seen
    ensures BookInv(WithRow(b, id, Restored(b.t, p, id, s, e)), p)
  {
    hide TapPool, IPPool, PortPool, Consistent;
    var r := Restored(b.t, p, id, s, e);
    CreateRestoreKeepsConsistent(b.t, p, id, s.bakedPath, s.tap, s.ip, e);
    assert IdentityInPools(p, BakedDisk(s).tap, BakedDisk(s).ip);
    NewRowKeepsBook(b, p, id, r);
  }

  lemma AddPortKeepsBook(b: Book, p: Pools, id: Id, gp: int)
    requires BookInv(b, p)
    ensures var r := AddPort(b.t, p, id, gp);
            r.Ok? ==> BookInv(Book(WithPort(b.t, id, gp, r.value), b.seen), p)
  {
    hide TapPool, IPPool, PortPool, Consistent, PrintIP;
    AddPortKeepsConsistent(b.t, p, id, gp);
  }

  lemma DestroyKeepsBook(b: Book, p: Pools, id: Id)
    requires BookInv(b, p)
    ensures BookInv(Book(WithoutSandbox(b.t, id), b.seen), p)
  {
    hide Consistent, IdentityInPools, PortPool;
    WithoutSandboxKeepsConsistent(b.t, id);
  }

  lemma UpdateKeepsBook(b: Book, p: Pools, id: Id, pid: int, e: Option<int>)
    requires BookInv(b, p) && id in b.t.sandboxes
    ensures BookInv(b.(t := WithSandbox(b.t, id, b.t.sandboxes[id].(pid := pid, expiresAt := e))), p)
  {
    hide Consistent, IdentityInPools, PortPool;
    UpdateKeepsConsistent(b.t, id, pid, e);
  }

  lemma DeletePortKeepsBook(b: Book, p: Pools, id: Id, gp: int)
    requires BookInv(b, p)
    ensures BookInv(Book(WithoutPort(b.t, id, gp), b.seen), p)
  {
    hide PortPool, IdentityInPools;
  }

  lemma SnapshotsKeepBook(b: Book, p: Pools, snapId: Id, s: Snapshot)
    requires BookInv(b, p)
    ensures BakedDisk(s) in b.seen ==> BookInv(Book(WithSnapshot(b.t, snapId, s), b.seen), p)
    ensures BookInv(Book(WithoutSnapshot(b.t, snapId), b.seen), p)
  {
    hide BookInv;
    if BakedDisk(s) in b.seen {
      SnapshotKeepsBook(b, p, snapId, s);
    }
    NoSnapshotKeepsBook(b, p, snapId);
  }

  lemma SnapshotKeepsBook(b: Book, p: Pools, snapId: Id, s: Snapshot)
    requires BookInv(b, p) && BakedDisk(s) in b.seen
    ensures BookInv(Book(WithSnapshot(b.t, snapId, s), b.seen), p)
  {
    hide PortPool, IdentityInPools;
    assert IdentityInPools(p, BakedDisk(s).tap, BakedDisk(s).ip);
  }

  lemma NoSnapshotKeepsBook(b: Book, p: Pools, snapId: Id)
    requires BookInv(b, p)
    ensures BookInv(Book(WithoutSnapshot(b.t, snapId), b.seen), p)
  {
    hide PortPool, IdentityInPools;
  }

  /** Every registry transaction keeps the invariant, whatever it is interleaved with. */
  lemma CommitKeepsBook(b: Book, p: Pools, op: Transaction)
    requires BookInv(b, p) && Allowed(b, op)
    ensures BookInv(Commit(b, p, op), p)
  {
    hide Consistent, InPools, Functional, SeenInPools, Create, CreateRestore, AddPort;
    match op
    case OpCreate(id, e) => CreateKeepsBook(b, p, id, e);
    case OpRestore(id, snapId, e) => RestoreKeepsBook(b, p, id, b.t.snapshots[snapId], e);
    case OpAddPort(id, gp) => AddPortKeepsBook(b, p, id, gp);
    case OpDestroy(id) => DestroyKeepsBook(b, p, id);
    case OpFinishStart(id, pid) =>
      if id in b.t.sandboxes {
        UpdateKeepsBook(b, p, id, pid, b.t.sandboxes[id].expiresAt);
      }
    case OpSetExpiry(id, e) =>
      if id in b.t.sandboxes {
        UpdateKeepsBook(b, p, id, b.t.sandboxes[id].pid, e);
      }
    case OpDeletePort(id, gp) => DeletePortKeepsBook(b, p, id, gp);
    case OpRecordSnapshot(snapId, s) => SnapshotsKeepBook(b, p, snapId, s);
    case OpDeleteSnapshot(snapId) => SnapshotsKeepBook(b, p, snapId, Snapshot("", "", "", "", ""));
  }

  // --- runs ---

  function CommitAll(b: Book, p: Pools, ops: seq<Transaction>): Book
    decreases |ops|
  {
    if ops == [] then b else CommitAll(Commit(b, p, ops[0]), p, ops[1..])
  }

  ghost predicate AllowedRun(b: Book, p: Pools, ops: seq<Transaction>)
    decreases |ops|
  {
    ops == [] || (Allowed(b, ops[0]) && AllowedRun(Commit(b, p, ops[0]), p, ops[1..]))
  }

  const EMPTY_BOOK := Book(EMPTY, {})

  lemma {:induction false} RunKeepsBook(b: Book, p: Pools, ops: seq<Transaction>)
    requires BookInv(b, p) && AllowedRun(b, p, ops)
    ensures BookInv(CommitAll(b, p, ops), p)
    decreases |ops|
  {
    hide BookInv, Commit, Allowed;
    if ops != [] {
      CommitKeepsBook(b, p, ops[0]);
      RunKeepsBook(Commit(b, p, ops[0]), p, ops[1..]);
    }
  }

  /** After any run that starts from an empty registry: a host port is held once across both tables, and every
      extra port has its sandbox. */
  lemma HostPortsUnique(p: Pools, ops: seq<Transaction>)
    requires AllowedRun(EMPTY_BOOK, p, ops)
    ensures var t := CommitAll(EMPTY_BOOK, p, ops).t;
            && (forall i, j | i in t.sandboxes && j in t.sandboxes && i != j ::
                  t.sandboxes[i].hostPort != t.sandboxes[j].hostPort)
            && (forall k, l | k in t.ports && l in t.ports && k != l :: t.ports[k] != t.ports[l])
            && (forall i, k | i in t.sandboxes && k in t.ports :: t.sandboxes[i].hostPort != t.ports[k])
            && (forall k | k in t.ports :: k.0 in t.sandboxes)
  {
    RunKeepsBook(EMPTY_BOOK, p, ops);
    var t := CommitAll(EMPTY_BOOK, p, ops).t;
    forall i, j | i in t.sandboxes && j in t.sandboxes && i != j ensures t.sandboxes[i].hostPort != t.sandboxes[j].hostPort {
      assert Apart(t.sandboxes[i], t.sandboxes[j]);
    }
  }

  /** After any run no two rows share a disk, although no index enforces it; and a disk path names one tap and one
      address in every row and every snapshot. */
  lemma DisksUnique(p: Pools, ops: seq<Transaction>)
    requires AllowedRun(EMPTY_BOOK, p, ops)
    ensures var t := CommitAll(EMPTY_BOOK, p, ops).t;
            && (forall i, j | i in t.sandboxes && j in t.sandboxes
                              && t.sandboxes[i].rootfsPath == t.sandboxes[j].rootfsPath :: i == j)
            && (forall i, s | i in t.sandboxes && s in t.snapshots && t.sandboxes[i].rootfsPath == t.snapshots[s].bakedPath ::
                  t.sandboxes[i].tap == t.snapshots[s].tap && t.sandboxes[i].ip == t.snapshots[s].ip)
            && (forall r, s | r in t.snapshots && s in t.snapshots && t.snapshots[r].bakedPath == t.snapshots[s].bakedPath ::
                  t.snapshots[r].tap == t.snapshots[s].tap && t.snapshots[r].ip == t.snapshots[s].ip)
  {
    RunKeepsBook(EMPTY_BOOK, p, ops);
    var b := CommitAll(EMPTY_BOOK, p, ops);
    forall i, j | i in b.t.sandboxes && j in b.t.sandboxes
                  && b.t.sandboxes[i].rootfsPath == b.t.sandboxes[j].rootfsPath ensures i == j {
      SamePathSameRow(b, p, i, j);
    }
    forall i, s | i in b.t.sandboxes && s in b.t.snapshots && b.t.sandboxes[i].rootfsPath == b.t.snapshots[s].bakedPath
      ensures b.t.sandboxes[i].tap == b.t.snapshots[s].tap && b.t.sandboxes[i].ip == b.t.snapshots[s].ip
    {
      assert DiskOf(b.t.sandboxes[i]) == BakedDisk(b.t.snapshots[s]);
    }
    forall r, s | r in b.t.snapshots && s in b.t.snapshots && b.t.snapshots[r].bakedPath == b.t.snapshots[s].bakedPath
      ensures b.t.snapshots[r].tap == b.t.snapshots[s].tap && b.t.snapshots[r].ip == b.t.snapshots[s].ip
    {
      assert BakedDisk(b.t.snapshots[r]) == BakedDisk(b.t.snapshots[s]);
    }
  }

  lemma SamePathSameRow(b: Book, p: Pools, i: Id, j: Id)
    requires BookInv(b, p) && i in b.t.sandboxes && j in b.t.sandboxes
    requires b.t.sandboxes[i].rootfsPath == b.t.sandboxes[j].rootfsPath
    ensures i == j
  {
    hide IdentityInPools, PortPool;
    assert DiskOf(b.t.sandboxes[i]) == DiskOf(b.t.sandboxes[j]);
    assert i == j || Apart(b.t.sandboxes[i], b.t.sandboxes[j]);
  }
}
