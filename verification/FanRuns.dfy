/** A whole fan-out as a run of the state machine (handleFanout in internal/server/snapshot.go): its clones are brought up
    and finished in parallel, command by command in any interleaving, and each command can fail. */
module FanRuns {
  import opened Wrappers
  import opened Pools
  import opened Tables
  import opened History
  import opened Hosts
  import opened Ledger
  import opened Commands
  import opened Lifecycle
  import opened Safety
  import opened Steps
  import opened Reachable
  import opened Events
  import opened Runs
  import opened Processes
  import opened Guarantees
  import opened Sites
  import opened Fanouts

  /** An event of the fan-out, of a sandbox that w does not know, or of a guest. */
  predicate FanEvent(w: World, fan: Id, ev: Event) {
    match ev
    case Fanout(f, _) => f == fan
    case StageBaked(f, _) => f == fan
    case SpawnClone(f, _, _) => f == fan
    case UnstageBaked(f, _) => f == fan
    case Settle(f) => f == fan
    case FinishFanout(f) => f == fan
    case Advance(id, _) => id !in w.ops && id !in w.c.t.sandboxes
    case RemoveRule(id, _, _) => id !in w.ops && id !in w.c.t.sandboxes
    case ThawTick(_, _) => true
    case GuestExit(_) => true
    case _ => false
  }

  /** The step reads the row that it should read, and deletes the row that it should delete. */
  predicate RowIsSure(op: Op, out: Outcome) {
    op.pc.Lookup? || RowGoes(op.pc) ==> out.Done?
  }

  predicate SureStep(w: World, ev: Event) {
    ev.Advance? && ev.id in w.ops ==> RowIsSure(w.ops[ev.id], ev.out)
  }

  ghost predicate DeletesRows(w: World, p: Pools, es: seq<Event>)
    decreases |es|
  {
    es == [] || (SureStep(w, es[0]) && DeletesRows(Apply(w, p, es[0]), p, es[1..]))
  }

  // --- what has been added so far ---

  /** A sandbox that came with the fan-out: a clone on its way up or down, or a live one. */
  ghost predicate Newcomer(w: World, v: World, fan: Id, id: Id) {
    && id !in w.ops && RowOf(v.c, id).rootfsPath == RootfsPath(id)
    && FreshDisk(w.c.seen, id) && RootfsPath(id) !in w.c.loose
    && (if id in v.ops then IsClone(v.ops[id], fan) else id in v.machines)
  }

  ghost predicate RowsGrown(w: World, v: World, fan: Id) {
    && (forall j | j in w.c.t.sandboxes :: SameButDisk(w.c, v.c, j) && (j in w.machines <==> j in v.machines))
    && (forall id | id in v.c.t.sandboxes && id !in w.c.t.sandboxes :: Newcomer(w, v, fan, id))
    && v.c.t.snapshots == w.c.t.snapshots && v.c.t.ports == w.c.t.ports
  }

  /** The operations are the old ones and those of the clones. */
  ghost predicate OpsGrown(w: World, v: World, fan: Id) {
    && (forall id | id in w.ops :: id in v.ops && v.ops[id] == w.ops[id])
    && (forall id | id in v.ops && id !in w.ops :: id !in w.c.t.sandboxes && id in v.c.t.sandboxes && IsClone(v.ops[id], fan))
    && (fan !in v.fans || v.fans[fan].phase.Staging? ==> forall id | id in v.ops :: id in w.ops)
  }

  ghost predicate FilesGrown(w: World, v: World, fan: Id) {
    && w.c.seen <= v.c.seen
    && v.c.loose == w.c.loose + (if fan in v.fans && v.fans[fan].staged then {BakedPath(v, fan)} else {})
    && (fan in v.fans && v.fans[fan].staged ==> BakedPath(v, fan) !in w.c.loose)
    && (forall f | f in w.c.loose :: f in w.c.host.files <==> f in v.c.host.files)
  }

  ghost predicate Grown(w: World, v: World, fan: Id) {
    RowsGrown(w, v, fan) && OpsGrown(w, v, fan) && FilesGrown(w, v, fan)
  }

  lemma GrownFromItself(w: World, fan: Id)
    requires fan !in w.fans
    ensures Grown(w, w, fan)
  {
  }

  // --- a clone's own step ---

  /** A step of a clone changes at most its own row's process id, or the row goes. */
  ghost predicate CloneTables(c: Core, d: Core, id: Id) {
    d.t == c.t || d.t == WithPid(c.t, id, STARTED) || d.t == WithoutSandbox(c.t, id)
  }

  /** The commands of a start or a take-down. */
  predicate CloneCommand(cmd: Command) {
    !BeforeRow(cmd) && !cmd.InsertsPort? && !cmd.RemovesPort? && !cmd.SetsDeadline?
  }

  lemma RunTables(c: Core, id: Id, cmd: Command)
    requires CloneCommand(cmd)
    ensures CloneTables(c, Run(c, id, cmd), id)
  {
    hide WithPid, WithoutSandbox;
  }

  lemma ClonesCommand(c: Core, p: Pools, id: Id, op: Op, out: Outcome)
    requires GoesUp(op.pc) || GoesDown(op.pc)
    ensures CloneCommand(CommandOf(c, p, id, op, out))
  {
  }

  /** When the operation of a clone ends and its row is read and deleted where it should be, the clone is live or gone. */
  lemma CloneEnds(v: World, p: Pools, id: Id, op: Op, out: Outcome)
    requires Works(v, id, op) && id in v.c.t.sandboxes && op.kind.Clone? && RowIsSure(op, out)
    requires (op.pc.Await? ==> id in v.machines)
    requires GoesUp(op.pc) || GoesDown(op.pc)
    ensures var x := AdvanceOp(v, p, id, op, out); id in x.ops || id in x.machines || id !in x.c.t.sandboxes
  {
    hide Launched, Primary, AllRules, RulesHeld;
  }

  lemma CloneIsUpOrDown(v: World, id: Id, op: Op)
    requires LocalInv(v, id) && Works(v, id, op) && op.kind.Clone?
    ensures id in v.c.t.sandboxes && (GoesUp(op.pc) || GoesDown(op.pc)) && (op.pc.Await? ==> id in v.machines)
  {
    hide FreshDisk, RootfsPath, Owns, GuestInv, MachineInv, StopInv, FullInv, ExposeInv;
  }

  /** Every extra port has its sandbox. */
  predicate PortsOwned(t: Tables) {
    forall k | k in t.ports :: k.0 in t.sandboxes
  }

  lemma OwnedPorts(c: Core, p: Pools)
    requires CoreInv(c, p)
    ensures PortsOwned(c.t)
  {
    hide InPools, Functional, Recorded, SeenInPools, TapsBalance, FilesBalance, RulesBalance;
  }

  // --- steps of the clones ---

  /** What a step on behalf of a clone does, as far as the rest is concerned. */
  ghost predicate CloneStep(v: World, x: World, id: Id, cmd: Command) {
    && id in v.ops && id in v.c.t.sandboxes
    && OthersSame(v.c, x.c, id) && OnlyFor(v, x, id) && CloneTables(v.c, x.c, id) && SmallHost(v.c, x.c, id, cmd)
    && !BeforeRow(cmd)
    && v.c.seen <= x.c.seen
    && (id in x.ops || id in x.machines || id !in x.c.t.sandboxes)
    && (id in x.ops ==> id in x.c.t.sandboxes && x.ops[id].kind == v.ops[id].kind)
  }

  lemma CloneStepOthers(w: World, v: World, x: World, fan: Id, id: Id, cmd: Command, j: Id)
    requires RowsGrown(w, v, fan) && id !in w.c.t.sandboxes && j in w.c.t.sandboxes && CloneStep(v, x, id, cmd)
    ensures SameButDisk(w.c, x.c, j) && (j in w.machines <==> j in x.machines)
  {
    assert SameButDisk(w.c, v.c, j);
    assert SameFor(v.c, x.c, j) && SameButDisk(v.c, x.c, j);
    SameButDiskTransitive(w.c, v.c, x.c, j);
    hide SameButDisk, Newcomer, CloneTables, SmallHost;
  }

  lemma CloneStepNewcomers(w: World, v: World, x: World, fan: Id, id: Id, cmd: Command, k: Id)
    requires RowsGrown(w, v, fan) && OpsGrown(w, v, fan) && id !in w.ops && CloneStep(v, x, id, cmd)
    requires k in x.c.t.sandboxes && k !in w.c.t.sandboxes
    ensures Newcomer(w, x, fan, k)
  {
    hide SameButDisk, SameFor, RootfsPath, FreshDisk, OthersSame, SmallHost;
    assert k in v.c.t.sandboxes && Newcomer(w, v, fan, k);
  }

  lemma CloneStepPorts(w: World, v: World, x: World, fan: Id, id: Id, cmd: Command)
    requires RowsGrown(w, v, fan) && PortsOwned(w.c.t) && id !in w.c.t.sandboxes && CloneStep(v, x, id, cmd)
    ensures x.c.t.snapshots == w.c.t.snapshots && x.c.t.ports == w.c.t.ports
  {
    hide SameButDisk, SameFor, Newcomer, OthersSame, SmallHost;
    assert PortKeys(v.c.t, id) == {};
  }

  lemma CloneStepRows(w: World, v: World, x: World, fan: Id, id: Id, cmd: Command)
    requires RowsGrown(w, v, fan) && OpsGrown(w, v, fan) && PortsOwned(w.c.t) && id !in w.c.t.sandboxes && id !in w.ops
    requires CloneStep(v, x, id, cmd)
    ensures RowsGrown(w, x, fan)
  {
    hide CloneStep, SameButDisk, Newcomer;
    CloneStepPorts(w, v, x, fan, id, cmd);
    forall j | j in w.c.t.sandboxes ensures SameButDisk(w.c, x.c, j) && (j in w.machines <==> j in x.machines) {
      CloneStepOthers(w, v, x, fan, id, cmd, j);
    }
    forall k | k in x.c.t.sandboxes && k !in w.c.t.sandboxes ensures Newcomer(w, x, fan, k) {
      CloneStepNewcomers(w, v, x, fan, id, cmd, k);
    }
  }

  lemma CloneStepOps(w: World, v: World, x: World, fan: Id, id: Id, cmd: Command)
    requires OpsGrown(w, v, fan) && id !in w.ops && CloneStep(v, x, id, cmd)
    ensures OpsGrown(w, x, fan)
  {
    hide OthersSame, CloneTables, SmallHost;
    assert forall j | j in v.c.t.sandboxes && j != id :: j in x.c.t.sandboxes;
  }

  lemma CloneStepFiles(w: World, v: World, x: World, fan: Id, id: Id, cmd: Command)
    requires RowsGrown(w, v, fan) && FilesGrown(w, v, fan) && id !in w.c.t.sandboxes && CloneStep(v, x, id, cmd)
    ensures FilesGrown(w, x, fan)
  {
    assert Newcomer(w, v, fan, id);
    hide OthersSame, CloneTables, RootfsPath, FreshDisk;
  }

  lemma CloneStepGrows(w: World, v: World, x: World, fan: Id, id: Id, cmd: Command)
    requires Grown(w, v, fan) && PortsOwned(w.c.t) && id !in w.c.t.sandboxes && id !in w.ops && CloneStep(v, x, id, cmd)
    ensures Grown(w, x, fan)
  {
    hide CloneStep, RowsGrown, OpsGrown, FilesGrown;
    CloneStepRows(w, v, x, fan, id, cmd);
    CloneStepOps(w, v, x, fan, id, cmd);
    CloneStepFiles(w, v, x, fan, id, cmd);
  }

  /** The operation goes on with its kind, and keeps its row until it ends. */
  lemma MovedKeepsRow(v: World, p: Pools, id: Id, op: Op, out: Outcome)
    requires Works(v, id, op) && id in v.c.t.sandboxes && (GoesUp(op.pc) || GoesDown(op.pc))
    ensures var x := AdvanceOp(v, p, id, op, out); id in x.ops ==> id in x.c.t.sandboxes && x.ops[id].kind == op.kind
  {
    hide Launched, Primary, AllRules, RulesHeld;
  }

  lemma AdvanceIsCloneStep(v: World, p: Pools, id: Id, op: Op, out: Outcome)
    requires Inv(v, p) && Works(v, id, op) && op.kind.Clone? && CanAdvance(v, id, op, out) && RowIsSure(op, out)
    ensures CloneStep(v, AdvanceOp(v, p, id, op, out), id, CommandOf(v.c, p, id, op, out))
  {
    hide Inv, LocalInv, BrokenInv, OthersSame, CanAdvance, CloneTables, CommandOf, NextOf, Run, OnlyFor, SmallTables,
      SmallHost, Moved, RowIsSure;
    LocalOf(v, p, id);
    CloneIsUpOrDown(v, id, op);
    AdvanceKeeps(v, p, id, op, out);
    MovedOnly(v, id, op, out, CommandOf(v.c, p, id, op, out), NextOf(v.c, p, id, op, out));
    SeenGrows(v.c, AdvanceOp(v, p, id, op, out).c, id, CommandOf(v.c, p, id, op, out));
    ClonesCommand(v.c, p, id, op, out);
    RunTables(v.c, id, CommandOf(v.c, p, id, op, out));
    CloneEnds(v, p, id, op, out);
    MovedKeepsRow(v, p, id, op, out);
  }

  lemma RemoveRuleIsCloneStep(v: World, p: Pools, id: Id, op: Op, r: Rule, out: Outcome)
    requires Inv(v, p) && Works(v, id, op) && op.kind.Clone? && CanRemove(op.pc, r)
    ensures CloneStep(v, RemoveRuleStep(v, id, op, r, out), id, DropsRule(r, out.Done?))
  {
    hide Inv, LocalInv, BrokenInv, OthersSame, CloneTables, OnlyFor, SmallTables, SmallHost, LessTodo;
    LocalOf(v, p, id);
    CloneIsUpOrDown(v, id, op);
    RemoveRuleKeeps(v, p, id, op, r, out);
    RemovalIsStep(v, id, op, r, out);
    SeenGrows(v.c, RemoveRuleStep(v, id, op, r, out).c, id, DropsRule(r, out.Done?));
    RunTables(v.c, id, DropsRule(r, out.Done?));
  }

  // --- steps of the fan-out ---

  /** A new row for a clone. */
  lemma SpawnRows(w: World, v: World, x: World, fan: Id, id: Id)
    requires RowsGrown(w, v, fan) && OpsGrown(w, v, fan) && w.c.seen <= v.c.seen && w.c.loose <= v.c.loose
    requires id !in v.ops && id !in v.c.t.sandboxes && FreshDisk(v.c.seen, id) && RootfsPath(id) !in v.c.loose
    requires OthersSame(v.c, x.c, id) && x.machines == v.machines && id in x.c.t.sandboxes && id in x.ops
    requires x.ops == v.ops[id := x.ops[id]]
    requires x.c.t == WithSandbox(v.c.t, id, x.c.t.sandboxes[id]) && x.c.t.sandboxes[id].rootfsPath == RootfsPath(id)
    requires IsClone(x.ops[id], fan)
    ensures RowsGrown(w, x, fan)
  {
    hide SameButDisk, SameFor, RootfsPath, OthersSame;
    forall j | j in w.c.t.sandboxes ensures SameButDisk(w.c, x.c, j) && (j in w.machines <==> j in x.machines) {
      SpawnOthers(w, v, x, fan, id, j);
    }
    forall k | k in x.c.t.sandboxes && k !in w.c.t.sandboxes ensures Newcomer(w, x, fan, k) {
      assert k != id ==> Newcomer(w, v, fan, k);
    }
  }

  lemma SpawnOthers(w: World, v: World, x: World, fan: Id, id: Id, j: Id)
    requires RowsGrown(w, v, fan) && j in w.c.t.sandboxes && id !in v.c.t.sandboxes && OthersSame(v.c, x.c, id)
    requires x.machines == v.machines
    ensures SameButDisk(w.c, x.c, j) && (j in w.machines <==> j in x.machines)
  {
    assert SameButDisk(w.c, v.c, j);
    assert j in v.c.t.sandboxes && j != id;
    assert SameFor(v.c, x.c, j) && SameButDisk(v.c, x.c, j);
    SameButDiskTransitive(w.c, v.c, x.c, j);
    hide SameButDisk, Newcomer;
  }

  /** Either the registry refuses and nothing happens, or the row and the operation of the clone appear. */
  ghost predicate Spawned(v: World, x: World, fan: Id, id: Id) {
    && id in x.c.t.sandboxes && id in x.ops && x.ops == v.ops[id := x.ops[id]] && x.machines == v.machines && x.fans == v.fans
    && x.c.t == WithSandbox(v.c.t, id, x.c.t.sandboxes[id]) && x.c.t.sandboxes[id].rootfsPath == RootfsPath(id)
    && IsClone(x.ops[id], fan)
    && v.c.seen <= x.c.seen && x.c.loose == v.c.loose && x.c.host == v.c.host
  }

  lemma Spawns(v: World, p: Pools, fan: Id, id: Id, e: Option<int>)
    requires fan in v.fans
    ensures var x := SpawnStep(v, p, fan, id, e); x == v || Spawned(v, x, fan, id)
  {
    CreatedIsInsertable(v.c.t, p, id, RootfsPath(id), e);
    hide RootfsPath, Create, Insertable;
  }

  lemma SpawnOps(w: World, v: World, x: World, fan: Id, id: Id)
    requires OpsGrown(w, v, fan) && FilesGrown(w, v, fan) && Spawned(v, x, fan, id) && id !in v.ops
    requires id !in v.c.t.sandboxes
    requires id !in w.c.t.sandboxes && InPhase(v, fan, BringUp)
    ensures OpsGrown(w, x, fan) && FilesGrown(w, x, fan)
  {
    hide RootfsPath;
  }

  lemma OldRowsStay(w: World, v: World, fan: Id)
    requires RowsGrown(w, v, fan)
    ensures forall j | j in w.c.t.sandboxes :: j in v.c.t.sandboxes
  {
    hide Newcomer;
    forall j | j in w.c.t.sandboxes ensures j in v.c.t.sandboxes {
      assert SameButDisk(w.c, v.c, j);
    }
  }

  lemma SpawnGrows(w: World, v: World, p: Pools, fan: Id, id: Id, e: Option<int>)
    requires Grown(w, v, fan) && InPhase(v, fan, BringUp) && Fresh(v, id) && Inv(v, p)
    ensures Grown(w, SpawnStep(v, p, fan, id, e), fan)
  {
    hide RootfsPath, FreshDisk, OthersSame, RowsGrown, OpsGrown, Inv, SpawnStep, Spawned;
    var x := SpawnStep(v, p, fan, id, e);
    SpawnNotLoose(v, p, id);
    SpawnKeeps(v, p, fan, id, e);
    Spawns(v, p, fan, id, e);
    OldRowsStay(w, v, fan);
    if x != v {
      SpawnedRow(v, x, fan, id);
      SpawnRows(w, v, x, fan, id);
      SpawnOps(w, v, x, fan, id);
    }
  }

  lemma SpawnedRow(v: World, x: World, fan: Id, id: Id)
    requires Spawned(v, x, fan, id)
    ensures id in x.c.t.sandboxes && id in x.ops && x.ops == v.ops[id := x.ops[id]] && x.machines == v.machines
    ensures x.c.t == WithSandbox(v.c.t, id, x.c.t.sandboxes[id]) && x.c.t.sandboxes[id].rootfsPath == RootfsPath(id)
    ensures IsClone(x.ops[id], fan)
  {
    hide RootfsPath;
  }

  lemma SpawnNotLoose(v: World, p: Pools, id: Id)
    requires id !in v.ops && FreshDisk(v.c.seen, id) && Inv(v, p)
    ensures RootfsPath(id) !in v.c.loose
  {
    assert LooseInv(v) && FansInv(v);
    hide Inv, LooseInv, FansInv, RootfsPath, FreshDisk;
    FreshNotLoose(v, id);
  }

  /** Where no file is and nothing is staged no file is under way. */
  lemma FreePathNotLoose(v: World, p: Pools, path: string)
    requires path !in v.c.host.files && NoneStagedAt(v, path) && Inv(v, p)
    ensures path !in v.c.loose
  {
    hide CoreInv, LocalInv, FansInv, ImagesInv, BrokenInv, RootfsPath, OpInv;
    if path in v.c.loose {
      var id :| id in v.ops && Rowless(v.ops[id].pc) && path == RootfsPath(id);
      assert LocalInv(v, id);
      LaidIfLoose(v, id);
      assert false;
    }
  }

  lemma LaidIfLoose(v: World, id: Id)
    requires LocalInv(v, id) && id in v.ops && Rowless(v.ops[id].pc) && RootfsPath(id) in v.c.loose
    ensures !v.ops[id].pc.Prepare?
  {
    hide RootfsPath, FreshDisk;
  }

  /** Only files and fan-outs change. */
  lemma ButDisksGrow(w: World, v: World, x: World, fan: Id)
    requires RowsGrown(w, v, fan) && AllSameButDisks(v.c, x.c) && x.c.t == v.c.t && x.machines == v.machines
    requires x.ops == v.ops
    ensures RowsGrown(w, x, fan)
  {
    hide SameButDisk, Newcomer;
    forall j | j in w.c.t.sandboxes ensures SameButDisk(w.c, x.c, j) {
      assert SameButDisk(w.c, v.c, j);
      StillThereAfter(w.c, v.c, j);
      SameButDiskTransitive(w.c, v.c, x.c, j);
    }
    forall k | k in x.c.t.sandboxes && k !in w.c.t.sandboxes ensures Newcomer(w, x, fan, k) {
      assert Newcomer(w, v, fan, k);
      SameNewcomer(w, v, x, fan, k);
    }
  }

  lemma StillThereAfter(c: Core, d: Core, j: Id)
    requires j in c.t.sandboxes && SameButDisk(c, d, j)
    ensures j in d.t.sandboxes
  {
  }

  lemma SameNewcomer(w: World, v: World, x: World, fan: Id, k: Id)
    requires k in v.c.t.sandboxes && Newcomer(w, v, fan, k) && x.c.t == v.c.t && x.machines == v.machines
    requires x.ops == v.ops
    ensures Newcomer(w, x, fan, k)
  {
    hide RootfsPath, FreshDisk;
  }

  lemma NotYetStaged(v: World, p: Pools, fan: Id)
    requires fan in v.fans && !v.fans[fan].phase.BringUp? && Inv(v, p)
    ensures !v.fans[fan].staged
  {
    hide Inv, Late, Reidentified;
    FanOf(v, p, fan);
  }

  lemma FanStepTables(v: World, x: World, fan: Id, path: string)
    requires FanStep(v, x, fan, path)
    ensures x.c.t == v.c.t && x.c.seen == v.c.seen
  {
  }

  lemma StagesWhole(v: World, ev: Event)
    requires ev.StageBaked? && !Leaks(v, ev) && CanStage(v, ev.fan)
    ensures ev.out.Half? ==> BakedPath(v, ev.fan) in v.c.host.files
  {
  }

  lemma StageGrows(w: World, v: World, p: Pools, fan: Id, out: Outcome)
    requires Grown(w, v, fan) && CanStage(v, fan) && (out.Half? ==> BakedPath(v, fan) in v.c.host.files) && Inv(v, p)
    ensures Grown(w, StageStep(v, fan, out), fan)
  {
    hide Inv, RowsGrown, AllSameButDisks, NoneStagedAt, NoneCopiesTo, FanStep;
    StageKeeps(v, p, fan, out);
    FanStepTables(v, StageStep(v, fan, out), fan, BakedPath(v, fan));
    ButDisksGrow(w, v, StageStep(v, fan, out), fan);
    NotYetStaged(v, p, fan);
    if BakedPath(v, fan) !in v.c.host.files {
      FreePathNotLoose(v, p, BakedPath(v, fan));
    }
  }

  lemma UnstageGrows(w: World, v: World, p: Pools, fan: Id, out: Outcome)
    requires Grown(w, v, fan) && CanUnstage(v, fan) && Inv(v, p)
    ensures Grown(w, UnstageStep(v, fan, out), fan)
  {
    hide Inv, RowsGrown, AllSameButDisks, IsClone, FanStep;
    UnstageKeeps(v, p, fan, out);
    FanStepTables(v, UnstageStep(v, fan, out), fan, BakedPath(v, fan));
    ButDisksGrow(w, v, UnstageStep(v, fan, out), fan);
  }

  /** Only the fan-out's phase or the guests change. */
  lemma AsideGrows(w: World, v: World, x: World, fan: Id)
    requires Grown(w, v, fan) && x.c == v.c && x.machines == v.machines && x.ops == v.ops
    requires forall f | f != fan :: f in v.fans <==> f in x.fans
    requires (fan in v.fans && v.fans[fan].staged) == (fan in x.fans && x.fans[fan].staged)
    requires fan in v.fans && v.fans[fan].staged ==> BakedPath(x, fan) == BakedPath(v, fan)
    requires fan !in x.fans || x.fans[fan].phase.Staging? ==> forall id | id in v.ops :: id in w.ops
    ensures Grown(w, x, fan)
  {
    AllSameAsItself(v.c);
    hide AllSameButDisks;
    ButDisksGrow(w, v, x, fan);
    hide RowsGrown;
  }

  // --- whole fan-outs ---

  lemma PhaseGrows(w: World, v: World, p: Pools, fan: Id, ev: Event)
    requires Grown(w, v, fan) && Enabled(v, ev) && FanEvent(w, fan, ev) && Inv(v, p)
    requires ev.Fanout? || ev.Settle? || ev.FinishFanout? || ev.ThawTick? || ev.GuestExit?
    ensures Grown(w, Apply(v, p, ev), fan)
  {
    hide Inv, Serving, Reidentified, RowsGrown, FilesGrown, Thaw, StageStep, UnstageStep, AdvanceOp, RemoveRuleStep,
      RestoreStep, SpawnStep, RestartStep, SnapshotStep, Run, Fresh, CanStage, CanUnstage, CanAdvance, CanRemove,
      NoneStagedAt;
    if ev.Settle? || ev.FinishFanout? {
      NotYetStaged(v, p, fan);
    }
    AsideGrows(w, v, Apply(v, p, ev), fan);
  }

  lemma EventGrows(w: World, v: World, p: Pools, fan: Id, ev: Event)
    requires Grown(w, v, fan) && Enabled(v, ev) && FanEvent(w, fan, ev) && !Leaks(v, ev) && SureStep(v, ev)
    requires PortsOwned(w.c.t) && Inv(v, p)
    ensures Grown(w, Apply(v, p, ev), fan)
  {
    hide Inv, RowsGrown, FilesGrown, StageStep, UnstageStep, SpawnStep, AdvanceOp, RemoveRuleStep, CloneStep,
      CanAdvance, CanRemove, CanStage, CanUnstage, CommandOf, LeftBy, PortsOwned, RowIsSure, RestoreStep, RestartStep,
      SnapshotStep, ThawStep, Run;
    match ev
    case StageBaked(_, out) =>
      StagesWhole(v, ev);
      StageGrows(w, v, p, fan, out);
    case SpawnClone(_, id, e) => SpawnGrows(w, v, p, fan, id, e);
    case UnstageBaked(_, out) => UnstageGrows(w, v, p, fan, out);
    case Advance(id, out) =>
      AdvanceIsCloneStep(v, p, id, v.ops[id], out);
      CloneStepGrows(w, v, AdvanceOp(v, p, id, v.ops[id], out), fan, id, CommandOf(v.c, p, id, v.ops[id], out));
    case RemoveRule(id, r, out) =>
      RemoveRuleIsCloneStep(v, p, id, v.ops[id], r, out);
      CloneStepGrows(w, v, RemoveRuleStep(v, id, v.ops[id], r, out), fan, id, DropsRule(r, out.Done?));
    case _ => PhaseGrows(w, v, p, fan, ev);
  }

  lemma {:induction false} RunGrows(w: World, v: World, p: Pools, fan: Id, es: seq<Event>)
    requires Grown(w, v, fan) && PortsOwned(w.c.t) && Inv(v, p)
    requires EnabledRun(v, p, es) && LeakFree(v, p, es) && DeletesRows(v, p, es)
    requires forall e | e in es :: FanEvent(w, fan, e)
    ensures Grown(w, Exec(v, p, es), fan)
    decreases |es|
  {
    hide Inv, Grown, Enabled, Apply, LeftBy, SureStep, FanEvent, PortsOwned, Spares;
    if es != [] {
      EventGrows(w, v, p, fan, es[0]);
      ApplyKeeps(v, p, es[0]);
      RunGrows(w, Apply(v, p, es[0]), p, fan, es[1..]);
    }
  }

  /** The sandboxes that v has and w has not. */
  function Added(w: World, v: World): map<Id, Sandbox> {
    map id | id in v.c.t.sandboxes && id !in w.c.t.sandboxes :: v.c.t.sandboxes[id]
  }

  function SiteOf(w: World): Site {
    Site(w.c.t, w.c.host, w.machines.Keys)
  }

  /** What the two states have in common when the fan-out is over, and what v has more. */
  ghost predicate Over(w: World, v: World) {
    && (forall j | j in w.c.t.sandboxes :: SameButDisk(w.c, v.c, j) && (j in w.machines <==> j in v.machines))
    && (forall id | id in Added(w, v) :: id in v.machines && Complete(v, id, None) && FreshDisk(w.c.seen, id)
                                         && v.c.t.sandboxes[id].rootfsPath == RootfsPath(id))
    && (forall id, gp | id in Added(w, v) :: (id, gp) !in v.c.t.ports && (id, gp) !in v.broken)
    && v.c.t.snapshots == w.c.t.snapshots && v.c.t.ports == w.c.t.ports
    && v.c.loose == w.c.loose && (forall f | f in w.c.loose :: f in w.c.host.files <==> f in v.c.host.files)
  }

  lemma IsOver(w: World, v: World, p: Pools, fan: Id)
    requires Grown(w, v, fan) && fan !in v.fans && PortsOwned(w.c.t) && Inv(v, p)
    ensures Over(w, v)
  {
    hide Inv, SameButDisk, Complete, FreshDisk, RootfsPath;
    forall id | id in Added(w, v)
      ensures id in v.machines && Complete(v, id, None) && FreshDisk(w.c.seen, id)
      ensures v.c.t.sandboxes[id].rootfsPath == RootfsPath(id)
    {
      assert Newcomer(w, v, fan, id);
      LocalOf(v, p, id);
      LiveIsWhole(v, id);
    }
    forall id, gp | id in Added(w, v) ensures (id, gp) !in v.c.t.ports && (id, gp) !in v.broken {
      UnbrokenWithoutPort(v, p, id, gp);
    }
  }

  lemma LiveIsWhole(v: World, id: Id)
    requires LocalInv(v, id) && id in v.machines && id !in v.ops
    ensures Complete(v, id, None)
  {
    hide Complete, GuestInv, OpInv;
  }

  lemma UnbrokenWithoutPort(v: World, p: Pools, id: Id, gp: int)
    requires (id, gp) !in v.c.t.ports && Inv(v, p)
    ensures (id, gp) !in v.broken
  {
    assert BrokenInv(v, id);
    hide CoreInv, LocalInv, FansInv, ImagesInv, LooseInv, DisksInv;
  }

  lemma OverRows(w: World, v: World)
    requires Over(w, v)
    ensures v.c.t.sandboxes == w.c.t.sandboxes + Added(w, v)
  {
    hide Complete, FreshDisk, RootfsPath, Bridged;
    forall j | j in w.c.t.sandboxes ensures j in v.c.t.sandboxes && v.c.t.sandboxes[j] == w.c.t.sandboxes[j] {
      assert SameButDisk(w.c, v.c, j);
    }
  }

  lemma OverMachines(w: World, v: World, p: Pools)
    requires Over(w, v) && Inv(w, p) && Inv(v, p)
    ensures v.machines.Keys == w.machines.Keys + Added(w, v).Keys
  {
    OverRows(w, v);
    hide Inv, SameButDisk, Complete, FreshDisk, RootfsPath;
    MachinesHaveRows(w, p);
    MachinesHaveRows(v, p);
  }

  lemma MachinesHaveRows(w: World, p: Pools)
    requires Inv(w, p)
    ensures forall id | id in w.machines :: id in w.c.t.sandboxes
  {
    hide CoreInv, OpInv, GuestInv, Complete, FansInv, ImagesInv, LooseInv, DisksInv, BrokenInv;
    forall id | id in w.machines ensures id in w.c.t.sandboxes {
      assert LocalInv(w, id);
    }
  }

  /** Without strays the host holds what the ledger says. */
  ghost predicate Balanced(c: Core) {
    && (forall tap :: tap in c.host.taps <==> exists id :: id in c.led.taps && id in c.t.sandboxes
                                                           && c.t.sandboxes[id].tap == tap)
    && (forall r :: c.host.rules[r] == if r in c.led.rules then 1 else 0)
    && (forall r | r in c.led.rules :: exists id :: Owns(c.t, id, r))
    && (forall id | id in c.led.files :: id in c.t.sandboxes && c.t.sandboxes[id].rootfsPath in c.host.files)
    && (forall f | f in c.host.files :: f in c.loose || exists id :: id in c.led.files && c.t.sandboxes[id].rootfsPath == f)
  }

  lemma IsBalanced(c: Core, p: Pools)
    requires CoreInv(c, p) && c.stray == NO_STRAYS
    ensures Balanced(c)
  {
    hide BookInv, Owns;
    forall r ensures c.host.rules[r] == if r in c.led.rules then 1 else 0 {
      assert NO_STRAYS.rules[r] == 0;
    }
  }

  lemma OverFiles(w: World, v: World)
    requires Over(w, v) && Balanced(w.c) && Balanced(v.c)
    ensures v.c.host.files == w.c.host.files + PathsOf(Added(w, v))
  {
    OverRows(w, v);
    hide Owns, FreshDisk, RootfsPath, Bridged;
    forall f ensures f in v.c.host.files <==> f in w.c.host.files || f in PathsOf(Added(w, v)) {
      OverFile(w, v, f);
    }
  }

  lemma OverFile(w: World, v: World, f: string)
    requires Over(w, v) && Balanced(w.c) && Balanced(v.c) && v.c.t.sandboxes == w.c.t.sandboxes + Added(w, v)
    ensures f in v.c.host.files <==> f in w.c.host.files || f in PathsOf(Added(w, v))
  {
    hide Owns, FreshDisk, RootfsPath, Bridged;
    if f !in w.c.loose && f in v.c.host.files {
      var id :| id in v.c.led.files && v.c.t.sandboxes[id].rootfsPath == f;
      if id in w.c.t.sandboxes {
        assert SameButDisk(w.c, v.c, id);
        assert id in w.c.led.files;
      } else {
        assert id in Added(w, v);
      }
    }
    if f !in w.c.loose && f in w.c.host.files {
      var id :| id in w.c.led.files && w.c.t.sandboxes[id].rootfsPath == f;
      assert SameButDisk(w.c, v.c, id);
      assert id in v.c.led.files;
    }
    if f in PathsOf(Added(w, v)) {
      var id :| id in Added(w, v) && Added(w, v)[id].rootfsPath == f;
      assert Complete(v, id, None);
    }
  }

  lemma OverTaps(w: World, v: World)
    requires Over(w, v) && Balanced(w.c) && Balanced(v.c)
    ensures v.c.host.taps == TapsWith(w.c.host.taps, {}, TapsOf(Added(w, v)))
  {
    OverRows(w, v);
    hide Owns, FreshDisk, RootfsPath, Over, Balanced, TapsWith, TapsOf, Added;
    var live := TapsOf(Added(w, v));
    var taps := TapsWith(w.c.host.taps, {}, live);
    forall tap ensures (tap in v.c.host.taps <==> tap in taps) && (tap in v.c.host.taps ==> v.c.host.taps[tap] == taps[tap]) {
      OverTap(w, v, tap);
      TapsWithAt(w.c.host.taps, live, tap);
    }
    SameTaps(v.c.host.taps, taps);
  }

  lemma SameTaps(m: map<string, bool>, n: map<string, bool>)
    requires forall tap :: (tap in m <==> tap in n) && (tap in m ==> m[tap] == n[tap])
    ensures m == n
  {
  }

  lemma TapsWithAt(taps: map<string, bool>, live: set<string>, tap: string)
    ensures var all := TapsWith(taps, {}, live);
            && (tap in all <==> tap in taps || tap in live)
            && (tap in live ==> all[tap]) && (tap in taps && tap !in live ==> all[tap] == taps[tap])
  {
  }

  lemma OverTap(w: World, v: World, tap: string)
    requires Over(w, v) && Balanced(w.c) && Balanced(v.c) && v.c.t.sandboxes == w.c.t.sandboxes + Added(w, v)
    ensures tap in v.c.host.taps <==> tap in w.c.host.taps || tap in TapsOf(Added(w, v))
    ensures tap in TapsOf(Added(w, v)) ==> v.c.host.taps[tap]
    ensures tap in w.c.host.taps && tap !in TapsOf(Added(w, v)) ==> v.c.host.taps[tap] == w.c.host.taps[tap]
  {
    hide Owns, FreshDisk, RootfsPath;
    if tap in v.c.host.taps {
      var id :| id in v.c.led.taps && id in v.c.t.sandboxes && v.c.t.sandboxes[id].tap == tap;
      assert id in Added(w, v) || (id in w.c.t.sandboxes && SameButDisk(w.c, v.c, id));
    }
    if tap in w.c.host.taps {
      var id :| id in w.c.led.taps && id in w.c.t.sandboxes && w.c.t.sandboxes[id].tap == tap;
      assert SameButDisk(w.c, v.c, id);
    }
    if tap in TapsOf(Added(w, v)) {
      var id :| id in Added(w, v) && Added(w, v)[id].tap == tap;
      assert Complete(v, id, None);
    }
  }

  /** An added sandbox has no extra port: the rules it calls for are those of its primary port. */
  lemma AddedOwns(w: World, v: World, id: Id, r: Rule)
    requires Over(w, v) && id in Added(w, v)
    ensures Owns(v.c.t, id, r) <==> r in PortRules(v.c.t.sandboxes[id].ip, v.c.t.sandboxes[id].hostPort, PRIMARY_PORT)
  {
    hide Complete, FreshDisk, RootfsPath, SameButDisk;
    assert r == Rule(r.chain, r.hostPort, r.ip, r.guestPort);
    assert r.chain == Prerouting || r.chain == Output;
    assert (id, r.guestPort) !in v.c.t.ports;
  }

  lemma OverRule(w: World, v: World, r: Rule)
    requires Over(w, v) && Balanced(w.c) && Balanced(v.c) && v.c.t.sandboxes == w.c.t.sandboxes + Added(w, v)
    ensures r in v.c.led.rules <==> r in w.c.led.rules || r in ForwardsOf(Added(w, v))
  {
    if r in v.c.led.rules {
      var id :| Owns(v.c.t, id, r);
      if id in w.c.t.sandboxes {
        assert SameButDisk(w.c, v.c, id);
        SameOwns(w.c, v.c, id);
      } else {
        AddedOwns(w, v, id, r);
      }
    }
    if r in w.c.led.rules {
      var id :| Owns(w.c.t, id, r);
      assert SameButDisk(w.c, v.c, id);
      SameOwns(w.c, v.c, id);
    }
    if r in ForwardsOf(Added(w, v)) {
      var id :| id in Added(w, v) && r in PortRules(Added(w, v)[id].ip, Added(w, v)[id].hostPort, PRIMARY_PORT);
      AddedOwns(w, v, id, r);
      assert Complete(v, id, None) && (id, r.guestPort) !in v.broken && Some(r.guestPort) != None;
    }
    hide SameButDisk, FreshDisk, RootfsPath, Bridged;
  }

  /** No old rule has the address of an added sandbox. */
  lemma OldRulesApart(w: World, v: World, r: Rule)
    requires Over(w, v) && Balanced(w.c) && v.c.t.sandboxes == w.c.t.sandboxes + Added(w, v) && Consistent(v.c.t)
    ensures r !in w.c.led.rules || r !in ForwardsOf(Added(w, v))
  {
    hide SameButDisk, FreshDisk, RootfsPath, Bridged, Complete, Over;
  }

  lemma OverRules(w: World, v: World)
    requires Over(w, v) && Balanced(w.c) && Balanced(v.c) && Consistent(v.c.t)
    ensures v.c.host.rules == w.c.host.rules + multiset(ForwardsOf(Added(w, v)))
  {
    OverRows(w, v);
    hide Over, Consistent, Owns, ForwardsOf;
    forall r ensures v.c.host.rules[r] == w.c.host.rules[r] + multiset(ForwardsOf(Added(w, v)))[r] {
      OverRule(w, v, r);
      OldRulesApart(w, v, r);
    }
  }

  lemma OverSites(w: World, v: World, p: Pools)
    requires Over(w, v) && w.c.stray == NO_STRAYS && v.c.stray == NO_STRAYS && Inv(w, p) && Inv(v, p)
    ensures SiteOf(v) == WithClones(SiteOf(w), map[], Added(w, v))
  {
    CoreOf(w, p);
    CoreOf(v, p);
    IsBalanced(w.c, p);
    IsBalanced(v.c, p);
    IsConsistent(v.c, p);
    hide Inv, CoreInv, Balanced, Consistent, TapsWith, TapsOf, PathsOf, ForwardsOf;
    OverRows(w, v);
    OverMachines(w, v, p);
    OverTaps(w, v);
    OverFiles(w, v);
    OverRules(w, v);
    SameTables(w, v);
    SameSite(w, v);
  }

  lemma SameSite(w: World, v: World)
    requires v.c.t.snapshots == w.c.t.snapshots && v.c.t.ports == w.c.t.ports
    requires v.c.t.sandboxes == w.c.t.sandboxes + Added(w, v) && v.machines.Keys == w.machines.Keys + Added(w, v).Keys
    requires v.c.host.taps == TapsWith(w.c.host.taps, {}, TapsOf(Added(w, v)))
    requires v.c.host.files == w.c.host.files + PathsOf(Added(w, v))
    requires v.c.host.rules == w.c.host.rules + multiset(ForwardsOf(Added(w, v)))
    ensures SiteOf(v) == WithClones(SiteOf(w), map[], Added(w, v))
  {
    hide TapsWith, TapsOf, PathsOf, ForwardsOf, Added;
    NoneUp();
    var more := Added(w, v);
    assert w.c.t.sandboxes + map[] + more == w.c.t.sandboxes + more;
    assert w.c.host.files + {} + PathsOf(more) == w.c.host.files + PathsOf(more);
  }

  lemma SameTables(w: World, v: World)
    requires Over(w, v)
    ensures v.c.t.snapshots == w.c.t.snapshots && v.c.t.ports == w.c.t.ports
  {
    hide SameButDisk, Complete, FreshDisk, RootfsPath;
  }

  lemma NoneUp()
    ensures TapsOf(map[]) == {} && PathsOf(map[]) == {}
  {
  }

  /** The disk of a snapshot is not the own disk of an added sandbox. */
  lemma BakedAsBefore(w: World, v: World, p: Pools, snapId: Id)
    requires Over(w, v) && CoreInv(w.c, p) && v.c.host.files == w.c.host.files + PathsOf(Added(w, v))
    requires snapId in w.c.t.snapshots
    ensures w.c.t.snapshots[snapId].bakedPath in v.c.host.files <==> w.c.t.snapshots[snapId].bakedPath in w.c.host.files
  {
    SnapshotSeen(w.c, p, snapId);
    hide CoreInv, SameButDisk, Complete, RootfsPath;
  }

  /** The sandboxes that were added are live, each with a disk of its own. */
  ghost predicate AllLive(w: World, v: World) {
    forall id | id in Added(w, v) :: id in v.machines && id !in v.ops && v.c.t.sandboxes[id].rootfsPath == RootfsPath(id)
  }

  /** There is a file at the path of a snapshot's disk if and only if there was one. */
  ghost predicate SameBaked(w: World, v: World) {
    forall s | s in w.c.t.snapshots ::
      w.c.t.snapshots[s].bakedPath in v.c.host.files <==> w.c.t.snapshots[s].bakedPath in w.c.host.files
  }

  /** A fan-out in full generality. Take any reachable state without strays, and let one fan-out run from its start to its
      end, the commands of its clones in any interleaving and each of them, but for the deletions of rows, free to fail
      as long as nothing leaks. Then registry, host and machines are what they were, plus exactly the clones that went
      live, each complete with its row, disk, bridged tap, both forwards and machine. */
  lemma FanoutLeavesLiveClones(p: Pools, es: seq<Event>, fan: Id, fs: seq<Event>)
    requires EnabledRun(INIT, p, es)
    requires var w := Exec(INIT, p, es);
             && w.c.stray == NO_STRAYS && fan !in w.fans
             && EnabledRun(w, p, fs) && LeakFree(w, p, fs) && DeletesRows(w, p, fs) && forall e | e in fs :: FanEvent(w, fan, e)
    ensures var w := Exec(INIT, p, es);
            var v := Exec(w, p, fs);
            fan !in v.fans ==> SiteOf(v) == WithClones(SiteOf(w), map[], Added(w, v)) && AllLive(w, v) && SameBaked(w, v)
  {
    hide Inv, EnabledRun, Exec, LeakFree, DeletesRows, FanEvent, AllLive, SameBaked, Added;
    var w := Exec(INIT, p, es);
    ReachableInv(p, es);
    FanoutFrom(w, p, fan, fs);
  }

  lemma FanoutFrom(w: World, p: Pools, fan: Id, fs: seq<Event>)
    requires Inv(w, p) && w.c.stray == NO_STRAYS && fan !in w.fans
    requires EnabledRun(w, p, fs) && LeakFree(w, p, fs) && DeletesRows(w, p, fs)
    requires forall e | e in fs :: FanEvent(w, fan, e)
    ensures var v := Exec(w, p, fs);
            fan !in v.fans ==> SiteOf(v) == WithClones(SiteOf(w), map[], Added(w, v)) && AllLive(w, v) && SameBaked(w, v)
  {
    FanEventsDoNotCrash(w, fan, fs);
    hide Inv, FanEvent, LeakFree, DeletesRows, EnabledRun, Exec, Grown, PortsOwned, CoreInv, AllLive, SameBaked, Over,
      Added;
    var v := Exec(w, p, fs);
    RunKeeps(w, p, fs);
    LeakFreeStrays(w, p, fs);
    CoreOf(w, p);
    OwnedPorts(w.c, p);
    GrownFromItself(w, fan);
    RunGrows(w, w, p, fan, fs);
    if fan !in v.fans {
      IsOver(w, v, p, fan);
      OverSites(w, v, p);
      AddedAreLive(w, v, fan);
      FilesOfSite(w, v);
      AllBakedAsBefore(w, v, p);
    }
  }

  lemma AllBakedAsBefore(w: World, v: World, p: Pools)
    requires Over(w, v) && CoreInv(w.c, p) && v.c.host.files == w.c.host.files + PathsOf(Added(w, v))
    ensures SameBaked(w, v)
  {
    hide Over, Added, CoreInv, PathsOf;
    forall s | s in w.c.t.snapshots
      ensures w.c.t.snapshots[s].bakedPath in v.c.host.files <==> w.c.t.snapshots[s].bakedPath in w.c.host.files
    {
      BakedAsBefore(w, v, p, s);
    }
  }

  lemma FilesOfSite(w: World, v: World)
    requires SiteOf(v) == WithClones(SiteOf(w), map[], Added(w, v))
    ensures v.c.host.files == w.c.host.files + PathsOf(Added(w, v))
  {
    NoneUp();
    hide PathsOf, TapsOf, ForwardsOf, TapsWith, Added;
  }

  lemma AddedAreLive(w: World, v: World, fan: Id)
    requires Over(w, v) && Grown(w, v, fan) && fan !in v.fans
    ensures AllLive(w, v)
  {
    hide SameButDisk, Complete, RootfsPath, FreshDisk;
    forall id | id in Added(w, v) ensures id in v.machines && id !in v.ops && v.c.t.sandboxes[id].rootfsPath == RootfsPath(id) {
      assert Newcomer(w, v, fan, id);
    }
  }

  lemma FanEventsDoNotCrash(w: World, fan: Id, fs: seq<Event>)
    requires forall e | e in fs :: FanEvent(w, fan, e)
    ensures forall e | e in fs :: !e.Crash?
  {
  }

  // --- a fan-out among others ---

  /** Anything but a crash: events of the fan-out, of its clones, of the others, of guests, snapshots and other
      fan-outs. The clones of the fan-out are none of the others. */
  predicate AmongOthers(w: World, fan: Id, others: set<Id>, ev: Event) {
    match ev
    case Crash(_) => false
    case SpawnClone(f, id, _) => if f == fan then id !in others && id !in w.c.t.sandboxes else id in others
    case Advance(id, _) => id in others || (id !in w.ops && id !in w.c.t.sandboxes)
    case RemoveRule(id, _, _) => id in others || (id !in w.ops && id !in w.c.t.sandboxes)
    case _ => Actor(ev).Some? ==> Actor(ev).value in others
  }

  /** Rows are read and deleted where they should be; those of the others need not be. */
  ghost predicate SureClones(w: World, p: Pools, others: set<Id>, es: seq<Event>)
    decreases |es|
  {
    es == [] || ((ActsFor(es[0], others) || SureStep(w, es[0])) && SureClones(Apply(w, p, es[0]), p, others, es[1..]))
  }

  predicate ActsFor(ev: Event, others: set<Id>) {
    Actor(ev).Some? && Actor(ev).value in others
  }

  predicate PastStaging(w: World, fan: Id) {
    fan in w.fans && !w.fans[fan].phase.Staging?
  }

  predicate CloneAt(w: World, fan: Id, id: Id) {
    id in w.ops && IsClone(w.ops[id], fan)
  }

  /** If the event starts a clone, it is one of this fan-out. */
  predicate SpawnsFor(ev: Event, fan: Id) {
    ev.SpawnClone? ==> ev.fan == fan
  }

  /** What became of id, of which w has no row: a create that waits for its row still waits; anything else is a clone on
      its way, a live one, or not there. */
  ghost predicate Came(w: World, v: World, fan: Id, id: Id) {
    if id in w.ops then id in v.ops && id !in v.c.t.sandboxes
    else
      && (id in v.ops ==> id in v.c.t.sandboxes && CloneAt(v, fan, id) && PastStaging(v, fan))
      && (id in v.c.t.sandboxes ==> RowOf(v.c, id).rootfsPath == RootfsPath(id) && (id in v.ops || id in v.machines))
  }

  /** Its fan-out does not end while a clone is under way. */
  lemma FanGoesOn(v: World, p: Pools, fan: Id, ev: Event, id: Id)
    requires Enabled(v, ev) && !ev.Crash? && PastStaging(v, fan)
    requires CloneAt(v, fan, id)
    ensures PastStaging(Apply(v, p, ev), fan)
  {
    hide Apply, Enabled, Run, SmallTables, SmallHost;
    if Subject(ev).Some? {
      EventIsStep(v, p, ev, Subject(ev).value);
    } else {
      PhaseGoesOn(v, p, fan, ev, id);
    }
  }

  lemma PhaseGoesOn(v: World, p: Pools, fan: Id, ev: Event, id: Id)
    requires Enabled(v, ev) && !ev.Crash? && Subject(ev) == None && PastStaging(v, fan)
    requires CloneAt(v, fan, id)
    ensures PastStaging(Apply(v, p, ev), fan)
  {
    hide AdvanceOp, RemoveRuleStep, RestoreStep, SpawnStep, RestartStep, ThawStep, StageStep, UnstageStep, Run,
      CanUnstage, CanSettle, CanAdvance, CanRemove, NoneStagedAt, NoneCopiesTo, Serving, Fresh;
    if ev.StageBaked? || ev.UnstageBaked? {
      StagingGoesOn(v, ev.fan, ev.out, fan);
    }
  }

  lemma StagingGoesOn(v: World, f: Id, out: Outcome, fan: Id)
    requires PastStaging(v, fan)
    ensures f != fan ==> fan in StageStep(v, f, out).fans && StageStep(v, f, out).fans[fan] == v.fans[fan]
    ensures PastStaging(UnstageStep(v, f, out), fan)
  {
    hide LayLoose, Litter, DropLoose;
  }

  lemma OthersCome(w: World, v: World, p: Pools, fan: Id, ev: Event, id: Id)
    requires Came(w, v, fan, id) && Enabled(v, ev) && !ev.Crash? && Subject(ev) != Some(id)
    ensures Came(w, Apply(v, p, ev), fan, id)
  {
    hide Enabled, Apply, RootfsPath;
    EventUntouched(v, p, ev, id);
    if id !in w.ops && id in v.ops {
      FanGoesOn(v, p, fan, ev, id);
    }
  }

  /** A clone's own steps. */
  lemma CloneComes(w: World, v: World, p: Pools, fan: Id, ev: Event, id: Id)
    requires Came(w, v, fan, id) && id !in w.ops && id in v.ops && Enabled(v, ev) && SureStep(v, ev) && Inv(v, p)
    requires (ev.Advance? || ev.RemoveRule?) && Actor(ev) == Some(id)
    ensures Came(w, Apply(v, p, ev), fan, id)
  {
    hide Inv, Enabled, RootfsPath, AdvanceOp, RemoveRuleStep, CloneStep, RowIsSure, CommandOf;
    OpWorks(v, ev);
    if ev.Advance? {
      AdvanceIsCloneStep(v, p, id, v.ops[id], ev.out);
      CloneStepComes(w, v, AdvanceOp(v, p, id, v.ops[id], ev.out), fan, id, CommandOf(v.c, p, id, v.ops[id], ev.out));
    } else {
      RemoveRuleIsCloneStep(v, p, id, v.ops[id], ev.rule, ev.out);
      CloneStepComes(w, v, RemoveRuleStep(v, id, v.ops[id], ev.rule, ev.out), fan, id, DropsRule(ev.rule, ev.out.Done?));
    }
  }

  lemma CloneStepComes(w: World, v: World, x: World, fan: Id, id: Id, cmd: Command)
    requires Came(w, v, fan, id) && id !in w.ops && CloneStep(v, x, id, cmd)
    ensures Came(w, x, fan, id)
  {
    hide RootfsPath, OthersSame, SmallHost;
  }

  /** It is spawned, or its guest thaws or exits. */
  lemma CloneArrives(w: World, v: World, p: Pools, fan: Id, ev: Event, id: Id)
    requires Came(w, v, fan, id) && Enabled(v, ev) && Subject(ev) == Some(id)
    requires (ev.SpawnClone? || ev.ThawTick? || ev.GuestExit?)
    requires SpawnsFor(ev, fan)
    ensures Came(w, Apply(v, p, ev), fan, id)
  {
    hide RootfsPath, Create, AdvanceOp, RemoveRuleStep, RestoreStep, SpawnStep, RestartStep, StageStep, UnstageStep,
      Thaw, CanAdvance, CanStage, CanUnstage, CanSettle, NoneStagedAt, Serving;
    if ev.SpawnClone? {
      Spawns(v, p, fan, id, ev.expiresAt);
    }
  }

  lemma EventComes(w: World, v: World, p: Pools, fan: Id, others: set<Id>, ev: Event, id: Id)
    requires Came(w, v, fan, id) && Enabled(v, ev) && AmongOthers(w, fan, others, ev) && Inv(v, p)
    requires ActsFor(ev, others) || SureStep(v, ev)
    requires id !in others && id !in w.c.t.sandboxes
    ensures Came(w, Apply(v, p, ev), fan, id)
  {
    hide Inv, Enabled, Apply, Came, SureStep;
    if Subject(ev) != Some(id) {
      OthersCome(w, v, p, fan, ev, id);
    } else if ev.Advance? || ev.RemoveRule? {
      OpWorks(v, ev);
      CloneComes(w, v, p, fan, ev, id);
    } else {
      CloneArrives(w, v, p, fan, ev, id);
    }
  }

  lemma {:induction false} RunComes(w: World, v: World, p: Pools, fan: Id, others: set<Id>, es: seq<Event>, id: Id)
    requires Came(w, v, fan, id) && Inv(v, p) && EnabledRun(v, p, es) && SureClones(v, p, others, es)
    requires (forall e | e in es :: AmongOthers(w, fan, others, e)) && id !in others && id !in w.c.t.sandboxes
    ensures Came(w, Exec(v, p, es), fan, id)
    decreases |es|
  {
    hide Inv, Enabled, Apply, Came, AmongOthers, SureStep, ActsFor, Spares;
    if es != [] {
      EventComes(w, v, p, fan, others, es[0], id);
      ApplyKeeps(v, p, es[0]);
      RunComes(w, Apply(v, p, es[0]), p, fan, others, es[1..], id);
    }
  }

  lemma {:induction false} MachineStays(v: World, p: Pools, es: seq<Event>, j: Id)
    requires EnabledRun(v, p, es) && forall e | e in es :: !e.Crash? && Actor(e) != Some(j)
    ensures j in Exec(v, p, es).machines <==> j in v.machines
    decreases |es|
  {
    hide Enabled, Apply, Actor;
    if es != [] {
      SameMachine(v, p, es[0], j);
      MachineStays(Apply(v, p, es[0]), p, es[1..], j);
    }
  }

  lemma SameMachine(v: World, p: Pools, ev: Event, j: Id)
    requires Enabled(v, ev) && !ev.Crash? && Actor(ev) != Some(j)
    ensures j in Apply(v, p, ev).machines <==> j in v.machines
  {
    hide Enabled, AdvanceOp, RemoveRuleStep, RestoreStep, SpawnStep, StageStep, UnstageStep, RestartStep, Run, Thaw;
    if Subject(ev) != Some(j) {
      EventUntouched(v, p, ev, j);
      hide Apply;
    }
  }

  /** A fan-out among everything else. Take any reachable state, and let anything but a crash happen while one fan-out
      runs from its start to its end: requests and commands for other sandboxes, their failures and leaks, snapshots,
      other fan-outs. A sandbox that is none of the others is then what it was, and when the fan-out is over every sandbox
      that came and is none of the others is a live clone, complete under its own disk. */
  lemma FanoutAmongOthers(p: Pools, es: seq<Event>, fan: Id, others: set<Id>, fs: seq<Event>)
    requires EnabledRun(INIT, p, es) && EnabledRun(Exec(INIT, p, es), p, fs)
    requires SureClones(Exec(INIT, p, es), p, others, fs)
    requires forall e | e in fs :: AmongOthers(Exec(INIT, p, es), fan, others, e)
    ensures var w := Exec(INIT, p, es);
            var v := Exec(w, p, fs);
            && (forall j | j in w.c.t.sandboxes && j !in others ::
                  && SameButDisk(w.c, v.c, j) && (j in w.c.led.files ==> SameFor(w.c, v.c, j))
                  && (j in w.machines <==> j in v.machines))
            && (fan !in v.fans ==>
                  forall id | id in v.c.t.sandboxes && id !in w.c.t.sandboxes && id !in others ::
                    && id in v.machines && id !in v.ops && Complete(v, id, None)
                    && RowOf(v.c, id).rootfsPath == RootfsPath(id))
  {
    hide Inv, LocalInv, BrokenInv, EnabledRun, Exec, SureClones, SameButDisk, SameFor, Complete, AmongOthers;
    var w := Exec(INIT, p, es);
    var v := Exec(w, p, fs);
    ReachableInv(p, es);
    RunKeeps(w, p, fs);
    forall j | j in w.c.t.sandboxes && j !in others
      ensures SameButDisk(w.c, v.c, j) && (j in w.c.led.files ==> SameFor(w.c, v.c, j))
      ensures j in w.machines <==> j in v.machines
    {
      NotForOld(w, fan, others, fs, j);
      NonInterferenceRun(w, p, fs, j);
      MachineStays(w, p, fs, j);
    }
    forall id | id in v.c.t.sandboxes && id !in w.c.t.sandboxes && id !in others && fan !in v.fans
      ensures id in v.machines && id !in v.ops && Complete(v, id, None) && RowOf(v.c, id).rootfsPath == RootfsPath(id)
    {
      assert Came(w, w, fan, id);
      RunComes(w, w, p, fan, others, fs, id);
      LocalOf(v, p, id);
      LiveIsWhole(v, id);
    }
  }

  lemma NotForOld(w: World, fan: Id, others: set<Id>, fs: seq<Event>, j: Id)
    requires (forall e | e in fs :: AmongOthers(w, fan, others, e)) && j in w.c.t.sandboxes && j !in others
    ensures forall e | e in fs :: !e.Crash? && Actor(e) != Some(j)
  {
  }
}
