/** Runs from an empty server that reach what the theorems speak of: the states in which the code does not keep a
    property it might be taken to keep, and a clone that goes live. */
module Witnesses {
  import opened Wrappers
  import opened Pools
  import opened Tables
  import opened History
  import opened Hosts
  import opened Ledger
  import opened Commands
  import opened Lifecycle
  import opened Safety
  import opened Events
  import opened Runs
  import opened Processes
  import opened Guarantees
  import opened Recovery
  import opened Endings
  import opened Liveness
  import opened FanLiveness

  // --- runs in which every command succeeds ---

  predicate ReadAt(w: World, id: Id) {
    id in w.ops ==> PortsRead(w.ops[id].pc)
  }

  /** The ports of every row that is taken down have been read, or will be. */
  ghost predicate AllRead(w: World) {
    forall id | id in w.ops :: PortsRead(w.ops[id].pc)
  }

  lemma NextReads(c: Core, p: Pools, id: Id, op: Op)
    requires PortsRead(op.pc)
    ensures var next := NextOf(c, p, id, op, Done); next.GoOn? ==> PortsRead(next.pc)
  {
    hide Registered, Allotted, Primary, AllRules;
  }

  lemma OwnReads(w: World, p: Pools, ev: Event, id: Id)
    requires AllRead(w) && Enabled(w, ev) && Succeeds(ev) && Subject(ev) == Some(id)
    ensures ReadAt(Apply(w, p, ev), id)
  {
    hide Enabled, CommandOf, NextOf, Run, Create, History.Restored, RootfsPath, Launched, Stops;
    if ev.Advance? {
      OpWorks(w, ev);
      NextReads(w.c, p, id, w.ops[id]);
    }
  }

  lemma ReadsOn(w: World, p: Pools, ev: Event)
    requires AllRead(w) && Enabled(w, ev) && Succeeds(ev)
    ensures AllRead(Apply(w, p, ev))
  {
    hide Enabled, Apply, PortsRead, Small, Run;
    if Subject(ev).Some? {
      EventIsStep(w, p, ev, Subject(ev).value);
      OwnReads(w, p, ev, Subject(ev).value);
    } else {
      EventIsAside(w, p, ev);
    }
  }

  lemma SuccessLeavesNothing(w: World, p: Pools, ev: Event)
    requires Inv(w, p) && AllRead(w) && Enabled(w, ev) && Succeeds(ev)
    ensures !Leaks(w, ev)
  {
    hide Inv, Enabled, PortsRead, LocalInv, BrokenInv, LeftByAdvance, IfInForce, IfHeld, RulesHeld;
    if ev.Advance? && ev.id in w.ops && RowGoes(w.ops[ev.id].pc) {
      LocalOf(w, p, ev.id);
      SucceedsWhole(w, ev, w.ops[ev.id]);
    }
  }

  lemma {:induction false} SuccessIsLeakFree(w: World, p: Pools, es: seq<Event>)
    requires Inv(w, p) && AllRead(w) && EnabledRun(w, p, es) && AllSucceed(es)
    ensures LeakFree(w, p, es) && forall e | e in es :: !e.Crash?
    decreases |es|
  {
    hide Inv, AllRead, Enabled, Apply, LeftBy, Spares;
    if es != [] {
      assert Succeeds(es[0]);
      SuccessLeavesNothing(w, p, es[0]);
      ReadsOn(w, p, es[0]);
      ApplyKeeps(w, p, es[0]);
      SuccessIsLeakFree(Apply(w, p, es[0]), p, es[1..]);
    }
  }

  lemma SuccessIsSound(p: Pools, es: seq<Event>)
    requires EnabledRun(INIT, p, es) && AllSucceed(es)
    ensures Inv(Exec(INIT, p, es), p) && Exec(INIT, p, es).c.stray == NO_STRAYS && LeakFree(INIT, p, es)
    ensures forall e | e in es :: !e.Crash?
  {
    hide Inv, Enabled, Apply, Succeeds, LeakFree;
    InitInv(p);
    SuccessIsLeakFree(INIT, p, es);
    ReachableInv(p, es);
    LeakFreeStrays(INIT, p, es);
  }

  lemma RecoverySucceeds(es: seq<Event>)
    requires forall e | e in es :: Recovers(e)
    ensures AllSucceed(es)
  {
  }

  // --- the first sandbox ---

  /** The pools can serve n sandboxes, counting an extra port as one. */
  predicate RoomFor(p: Pools, n: int) {
    n <= |TapPool(p)| && IPPool(p).Some? && n <= |IPPool(p).value| && n <= |PortPool(p)|
  }

  lemma CreateOnEmpty(t: Tables, p: Pools, id: Id, path: string, e: Option<int>)
    requires RoomFor(p, 1) && InPools(t, p) && t.sandboxes == map[] && t.ports == map[]
    ensures Create(t, p, id, path, e).Ok?
  {
    hide Create, TapPool, IPPool, PortPool, InPools;
    assert Consistent(t);
    ExactAdmission(t, p, id, path, e);
  }

  lemma EmptyInPools(p: Pools)
    ensures InPools(EMPTY, p)
  {
    hide TapPool, IPPool, PortPool, IdentityInPools;
  }

  lemma FirstCreate(p: Pools, id: Id)
    requires RoomFor(p, 1) && id != ""
    ensures Enabled(INIT, CreateSandbox(id, None)) && Create(INIT.c.t, p, id, RootfsPath(id), None).Ok?
    ensures ComingUp(RowInserted(INIT, p, id, None), id, Op(Cold, CreateTap))
  {
    EmptyInPools(p);
    CreateOnEmpty(INIT.c.t, p, id, RootfsPath(id), None);
    hide RoomFor, Create, RootfsPath;
    InsertedIsUp(INIT, p, id, None);
  }

  /** One live sandbox, no port, no snapshot and nothing under way. */
  ghost predicate Solo(w: World, id: Id) {
    && w.ops == map[] && w.fans == map[] && w.c.t.ports == map[] && w.c.t.snapshots == map[] && w.c.t.sandboxes.Keys == {id}
    && w.leftover == map[] && w.images == map[] && RowOf(w.c, id).rootfsPath == RootfsPath(id)
    && id in w.machines && w.machines[id].SdkMachine? && id in w.guests && forall d | d in w.c.seen :: d.path == RootfsPath(id)
  }

  lemma Creates(p: Pools, id: Id) returns (es: seq<Event>)
    requires RoomFor(p, 1) && id != ""
    ensures EnabledRun(INIT, p, es) && AllSucceed(es) && Solo(Exec(INIT, p, es), id)
    ensures Inv(Exec(INIT, p, es), p)
  {
    hide Create, RootfsPath, RowInserted, RoomFor, Apply, Enabled, Beside, Solo, Inv, ComingUp;
    FirstCreate(p, id);
    var rest := CreateCanSucceed(INIT, p, id, None);
    es := [CreateSandbox(id, None)] + rest;
    IsSolo(p, id, Exec(INIT, p, es));
    ReachableInv(p, es);
  }

  lemma IsSolo(p: Pools, id: Id, w: World)
    requires Create(INIT.c.t, p, id, RootfsPath(id), None).Ok? && Beside(RowInserted(INIT, p, id, None), w, id)
    requires LiveAs(w, id, SdkMachine)
    ensures Solo(w, id)
  {
    var u := RowInserted(INIT, p, id, None);
    CreatedIsInsertable(INIT.c.t, p, id, RootfsPath(id), None);
    hide Create, RootfsPath;
    assert u.ops - {id} == map[];
    assert w.ops - {id} == map[] && forall j | j in w.ops :: j in w.ops - {id};
    assert u.c.t.sandboxes - {id} == map[];
    assert forall j | j in w.c.t.sandboxes && j != id :: j in w.c.t.sandboxes - {id};
  }

  // --- a process that is forgotten ---

  /** The process of the sandbox runs, and nobody knows of it; it is cut off from the network. */
  predicate IsOffNetwork(w: World, id: Id) {
    id in w.leftover && w.leftover[id].cutOff
  }

  /** A create crashes after its guest has started and before its process id is recorded. The reconciliation runs to its
      end and leaves the host without rows, taps, rules and files; but the process is still there, off the network. */
  lemma ProcessIsForgotten(p: Pools, id: Id) returns (es: seq<Event>, rs: seq<Event>)
    requires RoomFor(p, 1) && id != ""
    ensures EnabledRun(INIT, p, es) && forall e | e in es :: !e.Crash?
    ensures EnabledRun(CrashStep(Exec(INIT, p, es)), p, rs) && forall e | e in rs :: Recovers(e)
    ensures var u := Exec(CrashStep(Exec(INIT, p, es)), p, rs);
            && Settled(u) && u.c.t.sandboxes == map[] && u.c.host.taps == map[] && u.c.host.rules == multiset{}
            && IsOffNetwork(u, id)
  {
    hide Create, RootfsPath, RowInserted, RoomFor, Apply, Enabled, Recovers, CrashStep, Beside, ComingUp, LeakFree,
      Inv, CutOff, Unrecorded, Settled, StagedAlone, Preparing, Recovering;
    FirstCreate(p, id);
    CreateStarts(INIT, p, id, None);
    es := [CreateSandbox(id, None)] + [Advance(id, Done)] + [Advance(id, Done)];
    var climb, op := Climbs(RowInserted(INIT, p, id, None), p, id, Op(Cold, CreateTap), 5);
    RunAppend(INIT, p, es, climb);
    es := es + climb;
    var w := Exec(INIT, p, es);
    FindsNoPid(w, id, op);
    CrashRecovers(w);
    rs := Completes(CrashStep(w), p);
    SuccessIsSound(p, es);
    CrashLeavesExactly(p, es, rs);
    assert id in Orphans(w);
  }

  lemma CrashRecovers(w: World)
    ensures Recovering(CrashStep(w))
  {
  }

  lemma FindsNoPid(w: World, id: Id, op: Op)
    requires ComingUp(w, id, op) && UpRank(op) == 5 && op.kind.Cold?
    ensures id in Unrecorded(w)
  {
  }

  // --- a start that failed and stays live ---

  /** The agent of a create does not answer, and the destroy that follows cannot read the row: the create fails, and its
      sandbox is live. */
  lemma SilentStaysLive(p: Pools, id: Id) returns (es: seq<Event>)
    requires RoomFor(p, 1) && id != ""
    ensures EnabledRun(INIT, p, es) && Works(Exec(INIT, p, es), id, Op(Cold, Await))
    ensures var fs := es + ([Advance(id, Failed)] + [Advance(id, Failed)]);
            EnabledRun(INIT, p, fs) && Live(Exec(INIT, p, fs), id) && id in Exec(INIT, p, fs).c.t.sandboxes
  {
    hide Create, RootfsPath, RowInserted, RoomFor, Apply, Enabled, EnabledRun, Exec, Beside;
    FirstCreate(p, id);
    CreateStarts(INIT, p, id, None);
    es := [CreateSandbox(id, None)] + [Advance(id, Done)] + [Advance(id, Done)];
    var climb, op := Climbs(RowInserted(INIT, p, id, None), p, id, Op(Cold, CreateTap), 1);
    RunAppend(INIT, p, es, climb);
    es := es + climb;
    var w, fail := Exec(INIT, p, es), Advance(id, Failed);
    GivesUp(w, p, id);
    RunOne(Apply(w, p, fail), p, fail);
    RunCons(w, p, fail, [fail]);
    RunAppend(INIT, p, es, [fail] + [fail]);
  }

  lemma GivesUp(w: World, p: Pools, id: Id)
    requires Works(w, id, Op(Cold, Await)) && id in w.c.t.sandboxes && id in w.machines
    ensures var v, fail := Apply(w, p, Advance(id, Failed)), Advance(id, Failed);
            && Enabled(w, fail) && Enabled(v, fail) && Live(Apply(v, p, fail), id) && id in Apply(v, p, fail).c.t.sandboxes
  {
    hide Enabled, Apply, AdvanceOp, ColdStep, ExposeStep, Primary, AllRules;
    Advances(w, p, id, Op(Cold, Await), Failed);
    var v := UpStep(w, id, Op(Cold, Await), Failed);
    Advances(v, p, id, Op(Cold, Lookup), Failed);
  }

  // --- a disk that is left ---

  /** A create crashes after it has prepared its disk and before its row is inserted: the reconciliation has nothing to do,
      and the disk stays. */
  lemma DiskIsLeft(p: Pools, id: Id) returns (es: seq<Event>)
    requires id != ""
    ensures EnabledRun(INIT, p, es) && AllSucceed(es)
    ensures var u := CrashStep(Exec(INIT, p, es));
            Settled(u) && u.c.t.sandboxes == map[] && u.c.host.files == {RootfsPath(id)}
  {
    hide Create, RootfsPath, AdvanceOp;
    PrepareStarts(INIT, p, id, None);
    assert Apply(INIT, p, CreateSandbox(id, None)) == INIT.(ops := INIT.ops[id := Op(Cold, Prepare(None))]);
    var u := Apply(INIT, p, CreateSandbox(id, None));
    hide Apply, Enabled;
    RunOne(u, p, Advance(id, Done));
    RunCons(INIT, p, CreateSandbox(id, None), [Advance(id, Done)]);
    es := [CreateSandbox(id, None)] + [Advance(id, Done)];
    assert CrashStep(Prepared(INIT, id, None)).ops == map[];
    EmptyIsSettled(CrashStep(Prepared(INIT, id, None)));
  }

  // --- an extra port ---

  /** The port is in the registry, and its first rule is about to be added. */
  ghost predicate Allocated(w: World, id: Id, gp: int, pc: Pc) {
    w.ops == map[id := Op(Request, pc)] && id in w.machines && id in w.c.t.sandboxes && (id, gp) in w.c.t.ports
  }

  lemma Allocates(w: World, p: Pools, id: Id, gp: int) returns (es: seq<Event>)
    requires Inv(w, p) && Solo(w, id) && 2 <= |PortPool(p)| && 1 <= gp <= 65535 && gp != PRIMARY_PORT
    ensures EnabledRun(w, p, es) && Allocated(Exec(w, p, es), id, gp, ExposePre(gp))
    ensures Exec(w, p, es).broken == w.broken
  {
    hide Inv, AddPort, PortPool, RootfsPath, AdvanceOp, ExposeStep, Allocated;
    RoomForExtra(w, p, id, gp);
    var op := Op(Request, Allocate(gp));
    var a := w.(ops := map[id := op]);
    assert Enabled(w, ExposePort(id, gp)) && Apply(w, p, ExposePort(id, gp)) == a;
    hide Enabled, Apply;
    Advances(a, p, id, op, Done);
    PortIsAllocated(a, p, id, gp);
    RunOne(a, p, Advance(id, Done));
    RunCons(w, p, ExposePort(id, gp), [Advance(id, Done)]);
    es := [ExposePort(id, gp)] + [Advance(id, Done)];
  }

  lemma RoomForExtra(w: World, p: Pools, id: Id, gp: int)
    requires Inv(w, p) && w.c.t.sandboxes.Keys == {id} && w.c.t.ports == map[] && 2 <= |PortPool(p)|
    ensures AddPort(w.c.t, p, id, gp).Ok?
  {
    hide Inv, PortPool, Consistent, InPools, FirstFree, UsedPorts;
    CoreOf(w, p);
    assert |w.c.t.sandboxes| == |w.c.t.sandboxes.Keys| == 1;
    RoomForPort(w.c.t, p);
  }

  lemma PortIsAllocated(w: World, p: Pools, id: Id, gp: int)
    requires w.ops == map[id := Op(Request, Allocate(gp))] && id in w.machines && id in w.c.t.sandboxes
             && AddPort(w.c.t, p, id, gp).Ok?
    ensures var v := ExposeStep(w, p, id, Op(Request, Allocate(gp)), Done);
            Allocated(v, id, gp, ExposePre(gp)) && v.broken == w.broken
  {
    hide AddPort;
  }

  /** A port is allocated, its first rule cannot be added, and its row cannot be withdrawn: the sandbox is live and the
      port stays in the registry, broken, with no rule in the ledger. */
  lemma PortBreaks(p: Pools, id: Id, gp: int) returns (es: seq<Event>)
    requires RoomFor(p, 1) && 2 <= |PortPool(p)| && id != "" && 1 <= gp <= 65535 && gp != PRIMARY_PORT
    ensures EnabledRun(INIT, p, es)
    ensures var v := Exec(INIT, p, es);
            && id in v.machines && id !in v.ops && (id, gp) in v.c.t.ports && (id, gp) in v.broken
            && forall r | Owns(v.c.t, id, r) && r.guestPort == gp :: r !in v.c.led.rules
  {
    hide RoomFor, PortPool, Apply, Enabled, EnabledRun, Exec, Inv, Solo, LocalInv, Owns;
    es := Creates(p, id);
    var fs := Allocates(Exec(INIT, p, es), p, id, gp);
    RunAppend(INIT, p, es, fs);
    es := es + fs;
    var a := Exec(INIT, p, es);
    var b := a.(ops := map[id := Op(Request, Unexpose(gp))]);
    RuleFails(a, p, id, gp);
    RowStays(b, p, id, gp);
    var fail := Advance(id, Failed);
    RunOne(b, p, fail);
    RunCons(a, p, fail, [fail]);
    RunAppend(INIT, p, es, [fail] + [fail]);
    es := es + ([fail] + [fail]);
    ReachableInv(p, es);
    LocalOf(Exec(INIT, p, es), p, id);
  }

  lemma RuleFails(w: World, p: Pools, id: Id, gp: int)
    requires Allocated(w, id, gp, ExposePre(gp))
    ensures Enabled(w, Advance(id, Failed))
    ensures Apply(w, p, Advance(id, Failed)) == w.(ops := map[id := Op(Request, Unexpose(gp))])
  {
    hide Enabled, Apply, AdvanceOp, Allotted;
    Advances(w, p, id, Op(Request, ExposePre(gp)), Failed);
  }

  lemma RowStays(w: World, p: Pools, id: Id, gp: int)
    requires Allocated(w, id, gp, Unexpose(gp))
    ensures Enabled(w, Advance(id, Failed))
    ensures Apply(w, p, Advance(id, Failed)) == w.(ops := map[], broken := w.broken + {(id, gp)})
  {
    hide Enabled, Apply, AdvanceOp, Allotted;
    Advances(w, p, id, Op(Request, Unexpose(gp)), Failed);
    assert w.ops - {id} == map[];
  }

  // --- a process that is forgotten although its id was recorded ---

  lemma {:induction false} StaysLost(w: World, p: Pools, es: seq<Event>, id: Id)
    requires forall e | e in es :: !e.Crash? && !e.GuestExit?
    ensures Lost(w, p, es, id, true)
    decreases |es|
  {
    hide Enabled, Apply;
    if es != [] {
      StaysLost(Apply(w, p, es[0]), p, es[1..], id);
    }
  }

  /** A sandbox is live when the server crashes; when it starts again its rows cannot be listed, and it serves on. A
      destroy of the sandbox then removes tap, disk and row, and leaves its process, whose id was in the row all along. */
  lemma RecordedIsForgotten(p: Pools, id: Id) returns (es: seq<Event>, fs: seq<Event>)
    requires RoomFor(p, 1) && id != ""
    ensures EnabledRun(INIT, p, es)
    ensures var w := Exec(INIT, p, es);
            id in w.machines && id in w.guests && id in w.c.t.sandboxes && RowOf(w.c, id).pid != 0
    ensures EnabledRun(Exec(INIT, p, es), p, [Crash(false)] + fs) && forall e | e in fs :: !e.Crash?
    ensures var u := Exec(Exec(INIT, p, es), p, [Crash(false)] + fs); id !in u.c.t.sandboxes && id in u.leftover
  {
    hide RoomFor, Apply, Enabled, RootfsPath, Inv, Agrees, Lost, Spares;
    es := Creates(p, id);
    var w := Exec(INIT, p, es);
    SuccessIsSound(p, es);
    LiveIsRecorded(p, es, id);
    var a := Apply(w, p, Crash(false));
    RestartIsLost(w, p, id);
    ApplyKeeps(w, p, Crash(false));
    fs := DestroysLost(a, p, id);
    RunCons(w, p, Crash(false), fs);
  }

  lemma LiveIsRecorded(p: Pools, es: seq<Event>, id: Id)
    requires EnabledRun(INIT, p, es) && forall e | e in es :: !e.Crash?
    ensures var w := Exec(INIT, p, es);
            Agrees(w, id, false) && (id in w.machines && id in w.c.t.sandboxes ==> RowOf(w.c, id).pid != 0)
  {
    hide EnabledRun, Exec, Lost, Followed;
    ReachableAgrees(p, es, id);
    CrashFreeLosesNone(INIT, p, es, id);
  }

  lemma RestartIsLost(w: World, p: Pools, id: Id)
    requires Agrees(w, id, false) && id in w.guests && id in w.c.t.sandboxes
    ensures Enabled(w, Crash(false))
    ensures var v := Apply(w, p, Crash(false)); Agrees(v, id, true) && v.ops == map[] && id in v.c.t.sandboxes
  {
    hide Agrees;
    RestartAgrees(w, false, id, false);
  }

  lemma DestroysLost(w: World, p: Pools, id: Id) returns (es: seq<Event>)
    requires Inv(w, p) && Agrees(w, id, true) && w.ops == map[] && id in w.c.t.sandboxes
    ensures EnabledRun(w, p, es) && forall e | e in es :: !e.Crash?
    ensures var u := Exec(w, p, es); id !in u.c.t.sandboxes && id in u.leftover
  {
    hide Apply, Enabled, Inv, Agrees, Lost;
    var gone, last := DestroySandbox(id), Advance(id, Done);
    RequestsDestroy(w, p, id);
    ApplyKeeps(w, p, gone);
    var a := Apply(w, p, gone);
    var down, op := Descends(a, p, id, Op(Request, Lookup));
    var b := Exec(a, p, down);
    RowIsDeleted(b, p, id, op);
    RunOne(b, p, last);
    RunAppend(a, p, down, [last]);
    RunCons(w, p, gone, down + [last]);
    es := [gone] + (down + [last]);
    StaysLost(w, p, es, id);
    RunAgrees(w, p, es, id, true);
    LostWithoutRow(Exec(w, p, es), id);
  }

  lemma LostWithoutRow(w: World, id: Id)
    requires Agrees(w, id, true) && id !in w.c.t.sandboxes
    ensures id in w.leftover
  {
  }

  // --- the rules of ports that could not be read ---

  /** The sandbox has an extra port, and the destroy that has just begun cannot read its ports. */
  ghost predicate Unread(w: World, id: Id, pc: Pc, r: Rule) {
    && Works(w, id, Op(Request, pc)) && id in w.c.t.sandboxes && (pc.Shutdown? || pc.DestroyRow?) && !PortsRead(pc)
    && r in w.c.led.rules && r !in TodoOf(pc) && Owns(w.c.t, id, r)
  }

  /** A sandbox has an extra port, and a destroy cannot read its ports: the destroy succeeds, the row is gone, and the
      port's first rule is still in force and belongs to nobody. */
  lemma RulesAreLeft(p: Pools, id: Id, gp: int) returns (es: seq<Event>)
    requires RoomFor(p, 1) && 2 <= |PortPool(p)| && id != "" && 1 <= gp <= 65535 && gp != PRIMARY_PORT
    ensures EnabledRun(INIT, p, es)
    ensures var v := Exec(INIT, p, es);
            && id !in v.c.t.sandboxes && id !in v.ops
            && exists r: Rule :: r.chain.Prerouting? && r.guestPort == gp && v.c.host.rules[r] >= 1 && v.c.stray.rules[r] >= 1
  {
    hide RoomFor, PortPool, Apply, Enabled, EnabledRun, Exec, Inv, Solo, Owns, ExtraRule;
    es := Creates(p, id);
    var fs := Allocates(Exec(INIT, p, es), p, id, gp);
    RunAppend(INIT, p, es, fs);
    es := es + fs;
    var a := Exec(INIT, p, es);
    var r, pc, gs := Overlooks(a, p, id, gp);
    RunAppend(INIT, p, es, gs);
    es := es + gs;
    var b := Exec(INIT, p, es);
    ReachableInv(p, es);
    var hs, last := Descends(b, p, id, Op(Request, pc));
    RunAppend(INIT, p, es, hs);
    es := es + hs;
    var c := Exec(INIT, p, es);
    ReachableInv(p, es);
    assert last == Op(Request, DestroyRow(false));
    RowGoesWithRule(c, p, id, r);
    RunOne(c, p, Advance(id, Done));
    RunAppend(INIT, p, es, [Advance(id, Done)]);
    es := es + [Advance(id, Done)];
  }

  lemma RowGoesWithRule(w: World, p: Pools, id: Id, r: Rule)
    requires Inv(w, p) && Unread(w, id, DestroyRow(false), r)
    ensures Enabled(w, Advance(id, Done))
    ensures var v := Apply(w, p, Advance(id, Done));
            id !in v.c.t.sandboxes && id !in v.ops && v.c.host.rules[r] >= 1 && v.c.stray.rules[r] >= 1
  {
    hide Inv, Enabled, Apply, Owns;
    RowIsDeleted(w, p, id, Op(Request, DestroyRow(false)));
    StraysExactly(w, p, Advance(id, Done));
    RuleIsHeld(w.c, id, r);
    hide RulesHeld;
  }

  lemma RuleIsHeld(c: Core, id: Id, r: Rule)
    requires r in c.led.rules && Owns(c.t, id, r)
    ensures r in RulesHeld(c, id)
  {
  }

  /** Both rules are added, and the destroy begins. */
  lemma Overlooks(w: World, p: Pools, id: Id, gp: int) returns (r: Rule, pc: Pc, es: seq<Event>)
    requires Allocated(w, id, gp, ExposePre(gp)) && gp != PRIMARY_PORT
    ensures EnabledRun(w, p, es) && Unread(Exec(w, p, es), id, pc, r) && pc.Shutdown? && r.chain.Prerouting?
    ensures r.guestPort == gp
  {
    hide Apply, Enabled, Unread, EnabledRun, Exec;
    var done, unread, gone := Advance(id, Done), Advance(id, Half), DestroySandbox(id);
    r := ExtraRule(w.c, id, Prerouting, gp);
    FirstRule(w, p, id, gp);
    var a := Apply(w, p, done);
    SecondRule(a, p, id, gp, r);
    var b := Apply(a, p, done);
    RequestsDestroy(b, p, id);
    var d := Apply(b, p, gone);
    pc := PortsUnread(d, p, id, r);
    RunOne(d, p, unread);
    RunCons(b, p, gone, [unread]);
    RunCons(a, p, done, [gone] + [unread]);
    RunCons(w, p, done, [done] + ([gone] + [unread]));
    es := [done] + ([done] + ([gone] + [unread]));
  }

  lemma FirstRule(w: World, p: Pools, id: Id, gp: int)
    requires Allocated(w, id, gp, ExposePre(gp))
    ensures Enabled(w, Advance(id, Done))
    ensures var v := Apply(w, p, Advance(id, Done));
            Allocated(v, id, gp, ExposeOut(gp)) && v.c.t == w.c.t && ExtraRule(w.c, id, Prerouting, gp) in v.c.led.rules
  {
    hide Enabled, Apply, AdvanceOp, Allotted;
    Advances(w, p, id, Op(Request, ExposePre(gp)), Done);
  }

  lemma SecondRule(w: World, p: Pools, id: Id, gp: int, r: Rule)
    requires Allocated(w, id, gp, ExposeOut(gp)) && r in w.c.led.rules
    ensures Enabled(w, Advance(id, Done))
    ensures var v := Apply(w, p, Advance(id, Done)); v.ops == map[] && v.c.t == w.c.t && r in v.c.led.rules
  {
    hide Enabled, Apply, AdvanceOp, Allotted;
    Advances(w, p, id, Op(Request, ExposeOut(gp)), Done);
    assert w.ops - {id} == map[];
  }

  lemma PortsUnread(w: World, p: Pools, id: Id, r: Rule) returns (pc: Pc)
    requires w.ops == map[id := Op(Request, Lookup)] && r in w.c.led.rules && Owns(w.c.t, id, r) && r.guestPort != PRIMARY_PORT
    ensures Enabled(w, Advance(id, Half)) && pc.Shutdown? && Unread(Apply(w, p, Advance(id, Half)), id, pc, r)
  {
    hide Enabled, Apply, AdvanceOp, AllRules;
    Advances(w, p, id, Op(Request, Lookup), Half);
    pc := Shutdown(Primary(w.c, id), false);
  }

  // --- a snapshot whose source is gone ---

  /** The only operation takes down the only sandbox, whose disk a snapshot names and is already gone. */
  ghost predicate Last(w: World, src: Id, snapId: Id) {
    && w.ops == map[src := Op(Request, DestroyRow(true))] && w.fans == map[] && w.c.t.sandboxes.Keys == {src}
    && w.c.t.ports == map[]
    && RowOf(w.c, src).rootfsPath == RootfsPath(src) && RootfsPath(src) !in w.c.host.files
    && snapId in w.c.t.snapshots && snapId in w.images && w.c.t.snapshots[snapId].bakedPath == RootfsPath(src)
    && w.leftover == map[] && (forall d | d in w.c.seen :: d.path == RootfsPath(src))
  }

  /** Create, snapshot and destroy, up to the last step. */
  lemma SourceGoes(p: Pools, src: Id, snapId: Id) returns (es: seq<Event>)
    requires RoomFor(p, 1) && src != ""
    ensures EnabledRun(INIT, p, es) && AllSucceed(es) && Last(Exec(INIT, p, es), src, snapId)
  {
    hide RoomFor, Apply, Enabled, EnabledRun, Exec, Last, Solo, Lowered, SnapshotStep, RootfsPath, Inv, Spares,
      Recovers, Snapped;
    es := Creates(p, src);
    var w := Exec(INIT, p, es);
    var snap, gone := TakeSnapshot(src, snapId, ""), DestroySandbox(src);
    var a := SnapshotStep(w, src, snapId, "");
    TakesSnapshot(w, p, src, snapId);
    RequestsDestroy(a, p, src);
    var b := a.(ops := map[src := Op(Request, Lookup)]);
    ApplyKeeps(w, p, snap);
    ApplyKeeps(a, p, gone);
    var fs, last := Descends(b, p, src, Op(Request, Lookup));
    RecoverySucceeds(fs);
    assert last == Op(Request, DestroyRow(true));
    BecomesLast(b, Exec(b, p, fs), src, snapId);
    RunCons(a, p, gone, fs);
    RunCons(w, p, snap, [gone] + fs);
    RunAppend(INIT, p, es, [snap] + ([gone] + fs));
    es := es + ([snap] + ([gone] + fs));
  }

  lemma TakesSnapshot(w: World, p: Pools, id: Id, snapId: Id)
    requires Solo(w, id)
    ensures Enabled(w, TakeSnapshot(id, snapId, ""))
    ensures Apply(w, p, TakeSnapshot(id, snapId, "")) == SnapshotStep(w, id, snapId, "")
    ensures var a := SnapshotStep(w, id, snapId, "");
            a.ops == map[] && id in a.c.t.sandboxes && Snapped(a.(ops := map[id := Op(Request, Lookup)]), id, snapId)
  {
    hide RootfsPath;
  }

  /** The only operation is about to destroy the only sandbox, whose disk a snapshot names. */
  ghost predicate Snapped(w: World, src: Id, snapId: Id) {
    && w.ops == map[src := Op(Request, Lookup)] && w.fans == map[] && w.c.t.sandboxes.Keys == {src} && w.c.t.ports == map[]
    && RowOf(w.c, src).rootfsPath == RootfsPath(src) && w.leftover == map[]
    && snapId in w.c.t.snapshots && snapId in w.images && w.c.t.snapshots[snapId].bakedPath == RootfsPath(src)
    && forall d | d in w.c.seen :: d.path == RootfsPath(src)
  }

  lemma BecomesLast(b: World, v: World, src: Id, snapId: Id)
    requires Snapped(b, src, snapId) && Lowered(b, v, src) && Works(v, src, Op(Request, DestroyRow(true)))
    requires RowOf(b.c, src).rootfsPath !in v.c.host.files
    ensures Last(v, src, snapId)
  {
    hide RootfsPath;
    assert b.ops - {src} == map[];
    assert forall j | j in v.ops && j != src :: j in v.ops - {src};
  }

  // --- a disk staged under a row that has lost its own ---

  /** A destroy deletes the disk of its sandbox and is then cut off before it deletes the row; a fan-out of a snapshot of
      the sandbox then stages its disk at the path that the row still names. */
  lemma StagedOverRow(p: Pools, src: Id, snapId: Id, fan: Id) returns (es: seq<Event>)
    requires RoomFor(p, 1) && src != ""
    ensures EnabledRun(INIT, p, es)
    ensures var w := Exec(INIT, p, es);
            src in w.c.t.sandboxes && w.ops == map[] && Enabled(w, StageBaked(fan, Done))
            && TouchesDisk(w, StageBaked(fan, Done), src)
  {
    hide RoomFor, Apply, Enabled, Last, RootfsPath, Succeeds, TouchesDisk, AdvanceOp;
    es := SourceGoes(p, src, snapId);
    var w := Exec(INIT, p, es);
    var cut, out := Advance(src, Failed), Fanout(fan, snapId);
    CutShort(w, p, src, snapId);
    var a := w.(ops := map[]);
    FansOutOverRow(a, p, src, snapId, fan);
    RunOne(a, p, out);
    RunCons(w, p, cut, [out]);
    RunAppend(INIT, p, es, [cut] + [out]);
    es := es + ([cut] + [out]);
  }

  lemma CutShort(w: World, p: Pools, src: Id, snapId: Id)
    requires Last(w, src, snapId)
    ensures Enabled(w, Advance(src, Failed)) && Apply(w, p, Advance(src, Failed)) == w.(ops := map[])
    ensures Diskless(w.(ops := map[]), src, snapId)
  {
    hide Enabled, Apply, AdvanceOp, RootfsPath, RemoveRow, Primary, AllRules;
    Advances(w, p, src, Op(Request, DestroyRow(true)), Failed);
    assert w.ops - {src} == map[];
  }

  /** The row is there, its disk and its operation are not. */
  ghost predicate Diskless(w: World, src: Id, snapId: Id) {
    && w.ops == map[] && w.fans == map[] && src in w.c.t.sandboxes && RowOf(w.c, src).rootfsPath !in w.c.host.files
    && snapId in w.c.t.snapshots && snapId in w.images && w.c.t.snapshots[snapId].bakedPath == RowOf(w.c, src).rootfsPath
  }

  lemma FansOutOverRow(w: World, p: Pools, src: Id, snapId: Id, fan: Id)
    requires Diskless(w, src, snapId)
    ensures Enabled(w, Fanout(fan, snapId))
    ensures var v := Apply(w, p, Fanout(fan, snapId));
            src in v.c.t.sandboxes && v.ops == map[] && Enabled(v, StageBaked(fan, Done))
            && TouchesDisk(v, StageBaked(fan, Done), src)
  {
    hide AdvanceOp, RemoveRuleStep, RestoreStep, SpawnStep, RestartStep, Run;
  }

  /** A repeated destroy of that row unlinks the staged disk under the fan-out's hands. */
  lemma StagedDiskIsUnlinked(p: Pools, src: Id, snapId: Id, fan: Id) returns (es: seq<Event>)
    requires RoomFor(p, 1) && src != ""
    ensures EnabledRun(INIT, p, es)
    ensures var w := Exec(INIT, p, es);
            StagedFor(w, fan, BakedPath(w, fan)) && BakedPath(w, fan) !in w.c.host.files
  {
    hide RoomFor, Apply, Enabled, EnabledRun, Exec, TouchesDisk;
    es := StagedOverRow(p, src, snapId, fan);
    var w := Exec(INIT, p, es);
    var stage, gone := StageBaked(fan, Done), DestroySandbox(src);
    StagesOverRow(w, p, src, fan);
    var a := Apply(w, p, stage);
    RequestsDestroy(a, p, src);
    var b := Apply(a, p, gone);
    ReachableInv(p, es);
    ApplyKeeps(w, p, stage);
    ApplyKeeps(a, p, gone);
    var fs, _ := Descends(b, p, src, Op(Request, Lookup));
    RunCons(a, p, gone, fs);
    RunCons(w, p, stage, [gone] + fs);
    RunAppend(INIT, p, es, [stage] + ([gone] + fs));
    es := es + ([stage] + ([gone] + fs));
  }

  /** The fan-out brings up its clones from the disk that it has staged there. */
  predicate StagedFor(w: World, fan: Id, path: string) {
    fan in w.fans && w.fans[fan].staged && w.fans[fan].phase.BringUp? && w.fans[fan].snapshot.bakedPath == path
  }

  lemma StagesOverRow(w: World, p: Pools, src: Id, fan: Id)
    requires w.ops == map[] && Enabled(w, StageBaked(fan, Done)) && TouchesDisk(w, StageBaked(fan, Done), src)
    ensures var a := Apply(w, p, StageBaked(fan, Done));
            a.ops == map[] && a.c.t == w.c.t && StagedFor(a, fan, RowOf(w.c, src).rootfsPath)
  {
    hide Enabled, AdvanceOp, RemoveRuleStep, RestoreStep, SpawnStep, RestartStep, Run;
  }

  // --- a clone goes live ---

  /** The source is gone; its snapshot is there. */
  ghost predicate Vacant(w: World, src: Id, snapId: Id) {
    && w.ops == map[] && w.fans == map[] && w.c.t.sandboxes == map[] && w.c.t.ports == map[] && w.guests == map[]
    && w.c.host.taps == map[] && RootfsPath(src) !in w.c.host.files && w.leftover.Keys <= {src}
    && snapId in w.c.t.snapshots && snapId in w.images && w.c.t.snapshots[snapId].bakedPath == RootfsPath(src)
    && forall d | d in w.c.seen :: d.path == RootfsPath(src)
  }

  lemma SourceIsGone(p: Pools, src: Id, snapId: Id) returns (es: seq<Event>)
    requires RoomFor(p, 1) && src != ""
    ensures EnabledRun(INIT, p, es) && AllSucceed(es) && Inv(Exec(INIT, p, es), p)
    ensures Vacant(Exec(INIT, p, es), src, snapId)
  {
    hide RoomFor, Apply, Enabled, RootfsPath, Inv, LeakFree, WithoutSandbox;
    es := SourceGoes(p, src, snapId);
    var w, last := Exec(INIT, p, es), Advance(src, Done);
    RowIsDeleted(w, p, src, Op(Request, DestroyRow(true)));
    NothingLeft(w.c.t, src);
    RunOne(w, p, last);
    RunAppend(INIT, p, es, [last]);
    es := es + [last];
    SuccessIsSound(p, es);
    OnlyStrays(Exec(INIT, p, es), p);
  }

  lemma NothingLeft(t: Tables, id: Id)
    requires t.sandboxes.Keys == {id} && t.ports == map[]
    ensures var u := WithoutSandbox(t, id); u.sandboxes == map[] && u.snapshots == t.snapshots
  {
  }

  function Staged(w: World, snapId: Id, fan: Id): World {
    if snapId in w.c.t.snapshots && snapId in w.images then
      w.(c := LayLoose(w.c, w.c.t.snapshots[snapId].bakedPath),
      fans := map[fan := Fan(w.c.t.snapshots[snapId], w.images[snapId], true, BringUp)])
    else w
  }

  /** Fanout and StageBaked. */
  lemma FansOut(w: World, p: Pools, src: Id, snapId: Id, fan: Id)
    requires Vacant(w, src, snapId)
    ensures var es := [Fanout(fan, snapId)] + [StageBaked(fan, Done)];
            EnabledRun(w, p, es) && Exec(w, p, es) == Staged(w, snapId, fan)
  {
    hide RootfsPath, AdvanceOp, RemoveRuleStep, RestoreStep, SpawnStep, RestartStep, Run, EnabledRun, Exec;
    var a := Apply(w, p, Fanout(fan, snapId));
    assert Apply(a, p, StageBaked(fan, Done)) == Staged(w, snapId, fan);
    RunOne(a, p, StageBaked(fan, Done));
    RunCons(w, p, Fanout(fan, snapId), [StageBaked(fan, Done)]);
  }

  /** A fan-out crashes after it has staged its disk: the reconciliation has nothing to do, and the disk stays. */
  lemma StagedDiskIsLeft(p: Pools, src: Id, snapId: Id, fan: Id) returns (es: seq<Event>)
    requires RoomFor(p, 1) && src != ""
    ensures EnabledRun(INIT, p, es) && AllSucceed(es)
    ensures var u := CrashStep(Exec(INIT, p, es));
            Settled(u) && u.c.t.sandboxes == map[] && RootfsPath(src) in u.c.host.files
  {
    hide RoomFor, RootfsPath, Inv, Vacant, CrashStep, Staged, Settled, Apply, Enabled;
    es := SourceIsGone(p, src, snapId);
    var w := Exec(INIT, p, es);
    FansOut(w, p, src, snapId, fan);
    StagedStays(w, src, snapId, fan);
    var fs := [Fanout(fan, snapId)] + [StageBaked(fan, Done)];
    RunAppend(INIT, p, es, fs);
    es := es + fs;
  }

  lemma StagedStays(a: World, src: Id, snapId: Id, fan: Id)
    requires Vacant(a, src, snapId)
    ensures var u := CrashStep(Staged(a, snapId, fan));
            Settled(u) && u.c.t.sandboxes == map[] && RootfsPath(src) in u.c.host.files
  {
    hide RootfsPath, Settled;
    assert CrashStep(Staged(a, snapId, fan)).ops == map[];
    EmptyIsSettled(CrashStep(Staged(a, snapId, fan)));
  }

  /** A snapshot is taken, its source is destroyed, and a fan-out then stages the disk, resumes a clone, removes the
      staged disk, waits until the clone has its own identity, and brings it up: the clone is live, on the bridge and
      under its own address. */
  lemma CloneGoesLive(p: Pools, src: Id, snapId: Id, fan: Id, clone: Id) returns (es: seq<Event>)
    requires RoomFor(p, 1) && src != "" && clone != "" && clone != src
    ensures EnabledRun(INIT, p, es) && AllSucceed(es)
    ensures var w := Exec(INIT, p, es);
            w.ops == map[] && w.fans == map[] && IsLive(w, clone, None) && OnBridge(w, clone)
  {
    hide RoomFor, Apply, Enabled, EnabledRun, Exec, RootfsPath, Succeeds, Inv, Vacant, LeakFree, Room, AllFresh,
      Stageable, OnlyThese, IsLive, OnBridge;
    es := SourceIsGone(p, src, snapId);
    SuccessIsSound(p, es);
    ReadyToFanOut(Exec(INIT, p, es), p, src, snapId, clone);
    var fs := FanoutCanSucceed(p, es, fan, snapId, [clone], None);
    assert clone in [clone];
    RunAppend(INIT, p, es, fs);
    es := es + fs;
  }

  lemma ReadyToFanOut(w: World, p: Pools, src: Id, snapId: Id, clone: Id)
    requires Vacant(w, src, snapId) && RoomFor(p, 1) && clone != "" && clone != src
    ensures AllFresh(w, [clone]) && Room(w.c.t, p, 1) && w.ops == map[] && w.fans == map[]
    ensures Stageable(w, snapId)
  {
    hide RootfsPath, TapPool, IPPool, PortPool;
    RootfsPathInjective(src, clone);
  }
}
