/** The other events keep the invariant too: requests, fan-out phases, guests and crashes. */
module Events {
  import opened Wrappers
  import opened Pools
  import opened Tables
  import opened History
  import opened Hosts
  import opened Ledger
  import opened Commands
  import opened Lifecycle
  import opened Safety
  import opened Steps
  import opened Reachable

  lemma LocalOf(w: World, p: Pools, id: Id)
    requires Inv(w, p)
    ensures LocalInv(w, id) && BrokenInv(w, id)
  {
    hide CoreInv, LocalInv, FansInv, ImagesInv, LooseInv, DisksInv, BrokenInv;
  }

  lemma FanOf(w: World, p: Pools, fan: Id)
    requires Inv(w, p)
    ensures FanInv(w, fan) && (fan in w.fans ==> BakedDisk(w.fans[fan].snapshot) in w.c.seen)
  {
    hide CoreInv, LocalInv, ImagesInv, LooseInv, DisksInv, BrokenInv, Late, Reidentified;
    assert FanInv(w, fan);
  }

  // --- requests that start an operation ---

  /** A request that only registers its operation. */
  lemma StartKeeps(w: World, p: Pools, id: Id, op: Op)
    requires Inv(w, p) && id !in w.ops && !op.kind.Clone? && (op.pc.Prepare? || op.pc.Lookup? || op.pc.Allocate?)
    requires OpInv(w.(ops := w.ops[id := op]), id, op)
    ensures Inv(w.(ops := w.ops[id := op]), p)
  {
    hide CoreInv, FansInv, ImagesInv, LooseInv, DisksInv, OpInv, StepFor, RootfsPath, OthersSame;
    var v := w.(ops := w.ops[id := op]);
    assert LocalInv(w, id) && BrokenInv(w, id);
    assert LocalInv(v, id) && BrokenInv(v, id);
    IdleRun(w.c, id);
    EntriesOnly(w, v, id, Idles);
    OrderKeeps(w, v, p, id, Idles);
  }

  lemma CreateKeeps(w: World, p: Pools, id: Id, e: Option<int>)
    requires Inv(w, p) && Fresh(w, id)
    ensures Inv(w.(ops := w.ops[id := Op(Cold, Prepare(e))]), p)
  {
    hide CoreInv, LocalInv, FansInv, ImagesInv, LooseInv, DisksInv, BrokenInv, RootfsPath, FreshDisk;
    FreshNotLoose(w, id);
    StartKeeps(w, p, id, Op(Cold, Prepare(e)));
  }

  /** A sandbox without an operation has none of its ports in doubt. */
  lemma RequestLocal(w: World, id: Id, op: Op)
    requires LocalInv(w, id) && id !in w.ops && id in w.c.t.sandboxes && op.kind.Request?
    requires op.pc.Lookup? || (op.pc.Allocate? && op.pc.guestPort != PRIMARY_PORT && (id, op.pc.guestPort) !in w.c.t.ports)
    ensures OpInv(w.(ops := w.ops[id := op]), id, op)
  {
    hide GuestInv, StartInv, RowlessInv, FreshDisk, RootfsPath, Owns;
  }

  lemma RequestKeeps(w: World, p: Pools, id: Id, op: Op)
    requires Inv(w, p) && id !in w.ops && id in w.c.t.sandboxes && op.kind.Request?
    requires op.pc.Lookup? || (op.pc.Allocate? && op.pc.guestPort != PRIMARY_PORT && (id, op.pc.guestPort) !in w.c.t.ports)
    ensures Inv(w.(ops := w.ops[id := op]), p)
  {
    hide Inv, LocalInv, BrokenInv, OpInv;
    LocalOf(w, p, id);
    RequestLocal(w, id, op);
    StartKeeps(w, p, id, op);
  }

  // --- restores and clones: the row comes first ---

  /** A new row in the books of a running server. */
  lemma RowKeeps(w: World, p: Pools, id: Id, row: Sandbox, op: Op)
    requires Inv(w, p) && id !in w.ops && op.pc.Copy? && HoldsNothing(w.c, id, row) && row.rootfsPath !in w.c.loose
    requires Fits(w.c, p, id, InsertsRow(row, false)) && KnownPath(w.c, id, InsertsRow(row, false))
    requires op.kind.Clone? || (op.kind.Restored? && op.kind.image == Memory(Some(row.ip), ""))
    requires op.kind.Clone? ==> id != "" && op.kind.image.lastGen == "" && op.kind.fan in w.fans
                                && w.fans[op.kind.fan].phase.BringUp?
    ensures var v := RowStep(w, id, Ok(row), op); Inv(v, p) && OthersSame(w.c, v.c, id)
  {
    hide CoreInv, LocalInv, FansInv, ImagesInv, LooseInv, DisksInv, BrokenInv, Fits, KnownPath, HoldsNothing, Small,
      RootfsPath, OthersSame;
    var v, cmd := RowStep(w, id, Ok(row), op), InsertsRow(row, false);
    assert LocalInv(w, id) && BrokenInv(w, id);
    NewRowLocal(w, id, row, false, op);
    NewRowBroken(w, v, id, row);
    EntriesOnly(w, v, id, cmd);
    OrderKeeps(w, v, p, id, cmd);
  }

  lemma NewRowBroken(w: World, v: World, id: Id, row: Sandbox)
    requires BrokenInv(w, id) && HoldsNothing(w.c, id, row) && v.broken == w.broken
    ensures BrokenInv(v, id)
  {
  }

  lemma RestoreKeeps(w: World, p: Pools, id: Id, snapId: Id, e: Option<int>)
    requires Inv(w, p) && Enabled(w, RestoreSandbox(id, snapId, e))
    ensures var v := RestoreStep(w, p, id, snapId, e); Inv(v, p) && OthersSame(w.c, v.c, id)
  {
    hide CoreInv, LocalInv, FansInv, LooseInv, DisksInv, BrokenInv, OthersSame, Run, CreateRestore, Insertable,
      RootfsPath, FreshDisk, Fits, HoldsNothing, NoneStagedAt;
    var s := w.c.t.snapshots[snapId];
    var r := History.Restored(w.c.t, p, id, s, e);
    SameAsItself(w.c, id);
    SnapshotSeen(w.c, p, snapId);
    if r.Ok? {
      RestoredFits(w.c, p, id, s, e);
      RestoredIsInsertable(w.c.t, p, id, s.bakedPath, s.tap, s.ip, e);
      NewRowHoldsNothing(w.c, p, id, r.value);
      NotLooseToRestore(w, s.bakedPath);
      assert w.images[snapId] == Memory(Some(s.ip), "");
      hide ImagesInv;
      RowKeeps(w, p, id, r.value, Op(Restored(w.images[snapId]), Copy));
    }
  }

  lemma SnapshotSeen(c: Core, p: Pools, snapId: Id)
    requires CoreInv(c, p) && snapId in c.t.snapshots
    ensures BakedDisk(c.t.snapshots[snapId]) in c.seen
    ensures BakedDisk(c.t.snapshots[snapId]).path == c.t.snapshots[snapId].bakedPath
  {
    assert Recorded(Book(c.t, c.seen));
    hide BookInv, TapsBalance, FilesBalance, RulesBalance;
  }

  /** A disk that has been seen is loose only where a fan-out has staged it. */
  lemma NotLooseToRestore(w: World, path: string)
    requires LooseInv(w) && (forall j :: LocalInv(w, j)) && NoneStagedAt(w, path)
    requires exists d :: d in w.c.seen && d.path == path
    ensures path !in w.c.loose
  {
    RowlessIsFresh(w);
    hide RootfsPath, LocalInv;
  }

  /** A fresh disk is not loose. */
  lemma FreshNotLoose(w: World, id: Id)
    requires LooseInv(w) && FansInv(w) && id !in w.ops && FreshDisk(w.c.seen, id)
    ensures RootfsPath(id) !in w.c.loose
  {
    forall fan | fan in w.fans ensures w.fans[fan].snapshot.bakedPath != RootfsPath(id) {
      assert FanInv(w, fan);
      assert BakedDisk(w.fans[fan].snapshot) in w.c.seen;
    }
    forall j | j != id ensures RootfsPath(j) != RootfsPath(id) {
      RootfsPathInjective(j, id);
    }
    hide RootfsPath, FansInv, FreshDisk;
  }

  lemma SpawnKeeps(w: World, p: Pools, fan: Id, id: Id, e: Option<int>)
    requires Inv(w, p) && InPhase(w, fan, BringUp) && Fresh(w, id)
    ensures var v := SpawnStep(w, p, fan, id, e); Inv(v, p) && OthersSame(w.c, v.c, id)
  {
    hide CoreInv, LocalInv, FansInv, ImagesInv, LooseInv, DisksInv, BrokenInv, OthersSame, Run, Create, RootfsPath,
      FreshDisk, Fits, HoldsNothing;
    var r := Create(w.c.t, p, id, RootfsPath(id), e);
    SameAsItself(w.c, id);
    CloneImage(w, fan);
    FreshNotLoose(w, id);
    if r.Ok? {
      CreatedFits(w.c, p, id, e, false);
      CreatedFacts(w.c, p, id, RootfsPath(id), e);
      RowKeeps(w, p, id, r.value, Op(Clone(fan, w.fans[fan].image), Copy));
    }
  }

  /** The image that a clone wakes up with has never applied an identity. */
  lemma CloneImage(w: World, fan: Id)
    requires FansInv(w) && fan in w.fans
    ensures w.fans[fan].image.lastGen == ""
  {
    assert FanInv(w, fan);
    hide FansInv;
  }

  // --- one rule is removed, one deadline is set ---

  lemma RemoveRuleKeeps(w: World, p: Pools, id: Id, op: Op, r: Rule, out: Outcome)
    requires Inv(w, p) && Works(w, id, op) && CanRemove(op.pc, r)
    ensures var v := RemoveRuleStep(w, id, op, r, out); Inv(v, p) && OthersSame(w.c, v.c, id)
  {
    hide Inv, KeepsOrder, RemoveRuleStep, OthersSame, LocalInv, BrokenInv, CanRemove;
    LocalOf(w, p, id);
    RemoveRuleOrder(w, p, id, op, r, out);
    OrderKeeps(w, RemoveRuleStep(w, id, op, r, out), p, id, DropsRule(r, out.Done?));
  }

  lemma RemoveRuleOrder(w: World, p: Pools, id: Id, op: Op, r: Rule, out: Outcome)
    requires LocalInv(w, id) && BrokenInv(w, id) && Works(w, id, op) && CanRemove(op.pc, r)
    ensures KeepsOrder(w, RemoveRuleStep(w, id, op, r, out), p, id, DropsRule(r, out.Done?))
  {
    hide LocalInv, BrokenInv, RootfsPath, Owns, Run, SmallTables, KeepsPorts;
    var v, cmd := RemoveRuleStep(w, id, op, r, out), DropsRule(r, out.Done?);
    RuleOwned(w, id, op, r);
    EntriesOnly(w, v, id, cmd);
    RemoveRuleLocal(w, id, op, r, out);
    RunKeepsPorts(w.c, id, cmd);
    BrokenFollows(w, v, id, None);
  }

  lemma RuleOwned(w: World, id: Id, op: Op, r: Rule)
    requires LocalInv(w, id) && Works(w, id, op) && CanRemove(op.pc, r)
    ensures Owns(w.c.t, id, r) && id in w.c.t.sandboxes
  {
    hide GuestInv, MachineInv, StartInv, ExposeInv, RowlessInv, Owns;
  }

  lemma TimeoutKeeps(w: World, p: Pools, id: Id, e: Option<int>)
    requires Inv(w, p) && id in w.c.t.sandboxes && id !in w.ops
    ensures var v := w.(c := Run(w.c, id, SetsDeadline(e))); Inv(v, p) && OthersSame(w.c, v.c, id)
  {
    hide CoreInv, LocalInv, FansInv, ImagesInv, LooseInv, DisksInv, BrokenInv, RootfsPath, SmallTables, Run,
      KeepsPorts, OthersSame;
    var v := w.(c := Run(w.c, id, SetsDeadline(e)));
    assert LocalInv(w, id) && BrokenInv(w, id);
    EntriesOnly(w, v, id, SetsDeadline(e));
    TimeoutLocal(w, id, e);
    RunKeepsPorts(w.c, id, SetsDeadline(e));
    BrokenFollows(w, v, id, None);
    OrderKeeps(w, v, p, id, SetsDeadline(e));
  }

  lemma TimeoutLocal(w: World, id: Id, e: Option<int>)
    requires LocalInv(w, id) && id in w.c.t.sandboxes && id !in w.ops
    ensures LocalInv(w.(c := Run(w.c, id, SetsDeadline(e))), id)
  {
    hide FreshDisk, RootfsPath;
  }

  // --- guests ---

  lemma GuestKeeps(w: World, v: World, p: Pools, id: Id)
    requires Inv(w, p) && v == w.(guests := v.guests, leftover := v.leftover) && LocalInv(v, id)
    requires OneEntry(w.guests, v.guests, id) && OneEntry(w.leftover, v.leftover, id)
    requires id in v.guests ==> id in w.guests && (Reidentified(w.guests[id]) ==> Reidentified(v.guests[id]))
    ensures Inv(v, p)
  {
    hide CoreInv, LocalInv, FansInv, ImagesInv, LooseInv, RootfsPath, StepFor, OthersSame, Reidentified, NoRulesAt;
    assert BrokenInv(w, id) && BrokenInv(v, id);
    IdleRun(w.c, id);
    EntriesOnly(w, v, id, Idles);
    OrderKeeps(w, v, p, id, Idles);
  }

  lemma ThawLocal(w: World, id: Id, poll: Poll)
    requires LocalInv(w, id) && id in w.guests
    ensures LocalInv(w.(guests := w.guests[id := Thaw(w.guests[id], poll)]), id)
  {
    hide FreshDisk, RootfsPath;
  }

  /** What nobody knows of any more is nobody's concern. */
  lemma LeftoverLocal(w: World, id: Id, leftover: map<Id, Leftover>)
    requires LocalInv(w, id)
    ensures LocalInv(w.(leftover := leftover), id)
  {
    hide FreshDisk, RootfsPath, Owns;
  }

  lemma ThawKeeps(w: World, p: Pools, id: Id, poll: Poll)
    requires Inv(w, p)
    ensures Inv(ThawStep(w, id, poll), p)
  {
    hide Inv, LocalInv;
    LocalOf(w, p, id);
    if id in w.guests {
      ThawLocal(w, id, poll);
    } else {
      LeftoverLocal(w, id, ThawStep(w, id, poll).leftover);
    }
    GuestKeeps(w, ThawStep(w, id, poll), p, id);
  }

  lemma ExitLocal(w: World, id: Id)
    requires LocalInv(w, id)
    ensures LocalInv(ExitStep(w, id), id)
  {
    hide FreshDisk, RootfsPath;
  }

  lemma ExitKeeps(w: World, p: Pools, id: Id)
    requires Inv(w, p)
    ensures Inv(ExitStep(w, id), p)
  {
    hide Inv, LocalInv;
    LocalOf(w, p, id);
    ExitLocal(w, id);
    GuestKeeps(w, ExitStep(w, id), p, id);
  }

  // --- snapshots and fan-outs: no sandbox changes ---

  /** Nothing of any sandbox changes, but for files without a row. */
  ghost predicate Still(w: World, v: World) {
    && AllSameButDisks(w.c, v.c) && v.c.t.sandboxes == w.c.t.sandboxes && v.c.seen == w.c.seen
    && v.ops == w.ops && v.guests == w.guests && v.machines == w.machines && v.broken == w.broken
    && forall j | FreshDisk(w.c.seen, j) :: RootfsPath(j) in w.c.loose <==> RootfsPath(j) in v.c.loose
  }

  lemma StillLocal(w: World, v: World)
    requires Still(w, v) && (forall j :: LocalInv(w, j)) && (forall j :: BrokenInv(w, j))
    ensures (forall j :: LocalInv(v, j)) && (forall j :: BrokenInv(v, j))
  {
    hide LocalInv, BrokenInv, SameButDisk, FreshDisk, RootfsPath;
    forall j ensures LocalInv(v, j) && BrokenInv(v, j) {
      assert Framed(w, v, j);
      FramedLocal(w, v, j);
      FramedBroken(w, v, j);
    }
  }

  /** Only the snapshots table and the images change. */
  lemma SnapshotsKeep(w: World, v: World, p: Pools)
    requires Inv(w, p) && ImagesInv(v) && CoreInv(v.c, p)
    requires v == w.(c := v.c, images := v.images) && v.c == w.c.(t := v.c.t)
    requires v.c.t == w.c.t.(snapshots := v.c.t.snapshots)
    ensures Inv(v, p)
  {
    hide CoreInv, LocalInv, BrokenInv, RootfsPath, Late, Reidentified;
    StillLocal(w, v);
    forall fan ensures FanInv(v, fan) {
      assert FanInv(w, fan);
    }
  }

  /** The guest of a sandbox that Pause accepts has the address of its row and has never applied an identity. */
  lemma PausedGuest(w: World, id: Id)
    requires LocalInv(w, id) && id in w.machines && w.machines[id].SdkMachine? && id in w.guests
    ensures id in w.c.t.sandboxes && w.guests[id].memory == Memory(Some(RowOf(w.c, id).ip), "")
  {
    hide OpInv, FreshDisk, RootfsPath;
  }

  lemma SnapshotBooks(c: Core, p: Pools, id: Id, snapId: Id, s: Snapshot)
    requires CoreInv(c, p) && id in c.t.sandboxes && BakedDisk(s) == DiskOf(c.t.sandboxes[id])
    ensures CoreInv(c.(t := WithSnapshot(c.t, snapId, s)), p) && CoreInv(c.(t := WithoutSnapshot(c.t, snapId)), p)
  {
    assert DiskOf(c.t.sandboxes[id]) in c.seen;
    SnapshotsKeepBook(Book(c.t, c.seen), p, snapId, s);
    hide BookInv;
    TablesAloneKeep(c, p, WithSnapshot(c.t, snapId, s));
    TablesAloneKeep(c, p, WithoutSnapshot(c.t, snapId));
  }

  lemma TakeSnapshotKeeps(w: World, p: Pools, id: Id, snapId: Id, frozen: string)
    requires Inv(w, p) && Enabled(w, TakeSnapshot(id, snapId, frozen))
    ensures Inv(SnapshotStep(w, id, snapId, frozen), p)
  {
    hide CoreInv, LocalInv, FansInv, LooseInv, DisksInv, BrokenInv;
    var row := RowOf(w.c, id);
    assert LocalInv(w, id);
    PausedGuest(w, id);
    SnapshotBooks(w.c, p, id, snapId, Snapshot(id, row.tap, row.ip, frozen, row.rootfsPath));
    SnapshotsKeep(w, SnapshotStep(w, id, snapId, frozen), p);
  }

  lemma DeleteSnapshotKeeps(w: World, p: Pools, snapId: Id)
    requires Inv(w, p)
    ensures Inv(w.(c := w.c.(t := WithoutSnapshot(w.c.t, snapId))), p)
  {
    SnapshotsKeepBook(Book(w.c.t, w.c.seen), p, snapId, Snapshot("", "", "", "", ""));
    hide BookInv, LocalInv, FansInv, LooseInv, DisksInv, BrokenInv;
    TablesAloneKeep(w.c, p, WithoutSnapshot(w.c.t, snapId));
    SnapshotsKeep(w, w.(c := w.c.(t := WithoutSnapshot(w.c.t, snapId))), p);
  }

  ghost predicate StagedAt(w: World, fan: Id, path: string) {
    fan in w.fans && w.fans[fan].staged && w.fans[fan].snapshot.bakedPath == path
  }

  /** At most one file without a row changes. */
  ghost predicate FileStep(c: Core, d: Core, path: string) {
    && d.t == c.t && d.seen == c.seen && d.stray.taps == c.stray.taps
    && forall f | f != path :: (f in c.loose <==> f in d.loose) && (f in c.host.files ==> f in d.host.files)
  }

  lemma LooseFiles(c: Core, path: string, done: bool)
    ensures FileStep(c, c, path)
    ensures FileStep(c, LayLoose(c, path), path) && path in LayLoose(c, path).loose
    ensures FileStep(c, Litter(c, path), path) && Litter(c, path).loose == c.loose
    ensures FileStep(c, DropLoose(c, path, done), path) && path !in DropLoose(c, path, done).loose
  {
  }

  /** Only this fan-out changes, and perhaps the file at the path of its disk, which has been seen. */
  ghost predicate FanStep(w: World, v: World, fan: Id, path: string) {
    && v == w.(c := v.c, fans := v.fans) && FileStep(w.c, v.c, path)
    && (forall f | f != fan :: (f in w.fans <==> f in v.fans) && (f in w.fans ==> w.fans[f] == v.fans[f]))
    && (exists d :: d in w.c.seen && d.path == path)
    && (fan in w.fans && w.fans[fan].staged ==> StagedAt(w, fan, path) && (path in v.c.loose ==> StagedAt(v, fan, path)))
    && (fan in v.fans && v.fans[fan].staged ==> StagedAt(v, fan, path) && forall f | f != fan :: !StagedAt(w, f, path))
    && ((exists f :: f != fan && StagedAt(w, f, path)) && path in w.c.loose ==> path in v.c.loose)
    && (path in v.c.loose && path !in w.c.loose ==> StagedAt(v, fan, path) && NoneCopiesTo(w, path))
  }

  /** Nobody's own disk is concerned. */
  lemma FanIsStill(w: World, v: World, fan: Id, path: string)
    requires FanStep(w, v, fan, path) && AllSameButDisks(w.c, v.c)
    ensures Still(w, v)
  {
    hide RootfsPath, AllSameButDisks;
  }

  lemma FanOthers(w: World, v: World, fan: Id, path: string)
    requires FansInv(w) && FanStep(w, v, fan, path) && FanInv(v, fan)
    ensures FansInv(v)
  {
    hide Late, Reidentified, NoneCopiesTo;
    forall f ensures FanInv(v, f) {
      assert FanInv(w, f);
      assert f in w.fans && w.fans[f].staged ==> StagedAt(w, f, w.fans[f].snapshot.bakedPath);
    }
    assert forall f | f in w.fans && w.fans[f].staged :: StagedAt(w, f, w.fans[f].snapshot.bakedPath);
  }

  lemma FanLoose(w: World, v: World, fan: Id, path: string)
    requires LooseInv(w) && FanStep(w, v, fan, path)
    ensures LooseInv(v)
  {
    hide RootfsPath, NoneCopiesTo;
  }

  lemma FanDisks(w: World, v: World, fan: Id, path: string)
    requires DisksInv(w) && (forall j :: LocalInv(w, j)) && FanStep(w, v, fan, path)
    ensures DisksInv(v)
  {
    RowlessIsFresh(w);
    hide RootfsPath, LocalInv, StagedAt;
  }

  lemma FanKeeps(w: World, v: World, p: Pools, fan: Id, path: string)
    requires Inv(w, p) && FanStep(w, v, fan, path) && FanInv(v, fan) && CoreInv(v.c, p) && AllSameButDisks(w.c, v.c)
    ensures Inv(v, p)
  {
    hide CoreInv, LocalInv, BrokenInv, FansInv, LooseInv, DisksInv, StagedAt, NoneCopiesTo, AllSameButDisks, Still,
      FanInv;
    FanIsStill(w, v, fan, path);
    StillLocal(w, v);
    FanOthers(w, v, fan, path);
    FanLoose(w, v, fan, path);
    FanDisks(w, v, fan, path);
  }

  lemma AllSameAsItself(c: Core)
    ensures AllSame(c, c) && AllSameButDisks(c, c)
  {
  }

  lemma FanoutKeeps(w: World, p: Pools, fan: Id, snapId: Id)
    requires Inv(w, p) && fan !in w.fans && snapId in w.c.t.snapshots && snapId in w.images
    ensures Inv(w.(fans := w.fans[fan := Fan(w.c.t.snapshots[snapId], w.images[snapId], false, Staging)]), p)
  {
    hide CoreInv, LocalInv, FansInv, LooseInv, DisksInv, BrokenInv, AllSameButDisks;
    SnapshotSeen(w.c, p, snapId);
    AllSameAsItself(w.c);
    FanKeeps(w, w.(fans := w.fans[fan := Fan(w.c.t.snapshots[snapId], w.images[snapId], false, Staging)]), p, fan,
             w.c.t.snapshots[snapId].bakedPath);
  }

  /** A step of a fan-out that touches no file. */
  lemma PhaseKeeps(w: World, v: World, p: Pools, fan: Id)
    requires Inv(w, p) && v == w.(fans := v.fans) && fan in w.fans && !w.fans[fan].staged && FanInv(v, fan)
    requires v.fans == w.fans - {fan} || v.fans == w.fans[fan := w.fans[fan].(phase := Finishing)]
    ensures Inv(v, p)
  {
    hide CoreInv, LocalInv, FansInv, ImagesInv, LooseInv, DisksInv, BrokenInv, AllSameButDisks, FanInv;
    FanOf(w, p, fan);
    AllSameAsItself(w.c);
    assert BakedDisk(w.fans[fan].snapshot).path == w.fans[fan].snapshot.bakedPath;
    FanKeeps(w, v, p, fan, w.fans[fan].snapshot.bakedPath);
  }

  lemma SettleKeeps(w: World, p: Pools, fan: Id)
    requires Inv(w, p) && CanSettle(w, fan)
    ensures Inv(w.(fans := w.fans[fan := w.fans[fan].(phase := Finishing)]), p)
  {
    hide Inv, Late, Reidentified;
    FanOf(w, p, fan);
    PhaseKeeps(w, w.(fans := w.fans[fan := w.fans[fan].(phase := Finishing)]), p, fan);
  }

  lemma FinishKeeps(w: World, p: Pools, fan: Id)
    requires Inv(w, p) && InPhase(w, fan, Finishing)
    ensures Inv(w.(fans := w.fans - {fan}), p)
  {
    hide Inv, Late, Reidentified;
    FanOf(w, p, fan);
    PhaseKeeps(w, w.(fans := w.fans - {fan}), p, fan);
  }

  lemma StageFiles(w: World, p: Pools, fan: Id, out: Outcome)
    requires CoreInv(w.c, p) && CanStage(w, fan)
    ensures var v := StageStep(w, fan, out); CoreInv(v.c, p) && AllSameButDisks(w.c, v.c)
  {
    hide CoreInv, AllSameButDisks, LayLoose, Litter;
    var path := BakedPath(w, fan);
    AllSameAsItself(w.c);
    if path !in w.c.host.files {
      NoFileNoDisk(w.c, p, path);
      LayLooseKeeps(w.c, p, path);
      LitterKeeps(w.c, p, path);
    }
  }

  lemma NoFileNoDisk(c: Core, p: Pools, path: string)
    requires CoreInv(c, p) && path !in c.host.files
    ensures NoDiskAt(c, path)
  {
    hide BookInv, TapsBalance, RulesBalance;
  }

  lemma StageIsFanStep(w: World, fan: Id, out: Outcome)
    requires FanInv(w, fan) && CanStage(w, fan)
    ensures FanStep(w, StageStep(w, fan, out), fan, BakedPath(w, fan))
  {
    hide Late, Reidentified, NoneCopiesTo, LayLoose, Litter, FileStep;
    LooseFiles(w.c, BakedPath(w, fan), out.Done?);
    assert BakedDisk(w.fans[fan].snapshot) in w.c.seen;
    hide FanInv;
  }

  lemma StagedFan(w: World, fan: Id, out: Outcome)
    requires FanInv(w, fan) && CanStage(w, fan)
    ensures FanInv(StageStep(w, fan, out), fan)
  {
    hide Late, Reidentified, NoneCopiesTo, NoneStagedAt;
  }

  lemma StageKeeps(w: World, p: Pools, fan: Id, out: Outcome)
    requires Inv(w, p) && CanStage(w, fan)
    ensures var v := StageStep(w, fan, out);
            Inv(v, p) && AllSameButDisks(w.c, v.c) && FanStep(w, v, fan, BakedPath(w, fan))
  {
    hide CoreInv, LocalInv, LooseInv, ImagesInv, DisksInv, BrokenInv, AllSameButDisks, FanInv, FanStep, StageStep,
      NoneStagedAt, NoneCopiesTo;
    assert FanInv(w, fan);
    StageIsFanStep(w, fan, out);
    StagedFan(w, fan, out);
    StageFiles(w, p, fan, out);
    hide FansInv;
    FanKeeps(w, StageStep(w, fan, out), p, fan, BakedPath(w, fan));
  }

  lemma UnstageFiles(w: World, p: Pools, fan: Id, out: Outcome)
    requires CoreInv(w.c, p) && FanInv(w, fan)
    ensures var v := UnstageStep(w, fan, out); CoreInv(v.c, p) && AllSameButDisks(w.c, v.c)
  {
    hide CoreInv, AllSameButDisks, DropLoose, Late, Reidentified;
    AllSameAsItself(w.c);
    if fan in w.fans && w.fans[fan].staged {
      DropLooseKeeps(w.c, p, BakedPath(w, fan), out.Done?);
    }
  }

  lemma UnstageIsFanStep(w: World, fan: Id, out: Outcome)
    requires FansInv(w) && CanUnstage(w, fan)
    ensures var v := UnstageStep(w, fan, out); FanStep(w, v, fan, BakedPath(w, fan)) && FanInv(v, fan)
  {
    hide Reidentified, NoneCopiesTo, DropLoose, FileStep;
    LooseFiles(w.c, BakedPath(w, fan), out.Done?);
    assert FanInv(w, fan);
    assert BakedDisk(w.fans[fan].snapshot) in w.c.seen;
  }

  lemma UnstageKeeps(w: World, p: Pools, fan: Id, out: Outcome)
    requires Inv(w, p) && CanUnstage(w, fan)
    ensures var v := UnstageStep(w, fan, out);
            Inv(v, p) && AllSameButDisks(w.c, v.c) && FanStep(w, v, fan, BakedPath(w, fan))
  {
    hide CoreInv, LocalInv, LooseInv, ImagesInv, DisksInv, BrokenInv, AllSameButDisks, FanInv, FanStep, UnstageStep;
    assert FanInv(w, fan);
    UnstageIsFanStep(w, fan, out);
    UnstageFiles(w, p, fan, out);
    hide FansInv;
    FanKeeps(w, UnstageStep(w, fan, out), p, fan, BakedPath(w, fan));
  }

  // --- crashes ---

  lemma CrashLocal(w: World, id: Id)
    requires LocalInv(w, id)
    ensures LocalInv(CrashStep(w), id)
  {
  }

  lemma CrashBroken(w: World, id: Id)
    requires BrokenInv(w, id)
    ensures BrokenInv(CrashStep(w), id)
  {
  }

  lemma CrashKeeps(w: World, p: Pools)
    requires Inv(w, p)
    ensures Inv(CrashStep(w), p) && AllSame(w.c, CrashStep(w).c)
  {
    hide CoreInv, LocalInv, BrokenInv, RootfsPath, AllSame;
    var v := CrashStep(w);
    CutLooseKeeps(w.c, p);
    forall id ensures LocalInv(v, id) && BrokenInv(v, id) {
      assert LocalInv(w, id) && BrokenInv(w, id);
      CrashLocal(w, id);
      CrashBroken(w, id);
    }
  }

  /** Without operations there is less to keep. */
  lemma IdleLocal(w: World, id: Id)
    requires LocalInv(w, id) && BrokenInv(w, id) && id !in w.machines
    ensures LocalInv(w.(ops := map[]), id) && BrokenInv(w.(ops := map[]), id)
  {
    hide OpInv;
  }

  /** A restart keeps the invariant, whether its rows can be listed or not. */
  lemma RestartKeeps(w: World, p: Pools, listed: bool)
    requires Inv(w, p)
    ensures Inv(RestartStep(w, listed), p) && AllSame(w.c, RestartStep(w, listed).c)
  {
    hide CoreInv, LocalInv, BrokenInv, RootfsPath, AllSame;
    CrashKeeps(w, p);
    var v := CrashStep(w);
    forall id ensures LocalInv(v.(ops := map[]), id) && BrokenInv(v.(ops := map[]), id) {
      assert LocalInv(v, id) && BrokenInv(v, id);
      IdleLocal(v, id);
    }
  }
}
