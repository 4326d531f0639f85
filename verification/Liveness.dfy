/** What can happen does: a create or restore whose commands succeed reaches a live sandbox. */
module Liveness {
  import opened Wrappers
  import opened Pools
  import opened Tables
  import opened History
  import opened Hosts
  import opened Ledger
  import opened Commands
  import opened Lifecycle
  import opened Runs

  /** How many commands are left until the sandbox is live. A clone first launches and parks, and is put on the bridge
      later; any other sandbox is put on the bridge first. */
  function UpRank(op: Op): nat {
    match op.pc
    case Copy => if op.kind.Clone? then 10 else 9
    case CreateTap => if op.kind.Clone? then 9 else 8
    case Launch => if op.kind.Clone? then 8 else 6
    case Parked => 7
    case FindPid => if op.kind.Clone? then 6 else 5
    case Attach => if op.kind.Clone? then 5 else 7
    case ForwardPre => 4
    case ForwardOut => 3
    case Record => 2
    case _ => 1
  }

  /** The command after this one, when it succeeds. */
  function NextUp(op: Op): Op {
    op.(pc := match op.pc
    case Copy => CreateTap
    case CreateTap => if op.kind.Clone? then Launch else Attach
    case Launch => if op.kind.Clone? then Parked else FindPid
    case Parked => FindPid
    case FindPid => if op.kind.Clone? then Attach else ForwardPre
    case Attach => if op.kind.Clone? then ForwardPre else Launch
    case ForwardPre => ForwardOut
    case ForwardOut => Record
    case _ => Await)
  }

  predicate HasGuest(op: Op) {
    !op.pc.Copy? && !op.pc.CreateTap? && !op.pc.Launch? && !(op.pc.Attach? && !op.kind.Clone?)
  }

  ghost predicate ComingUp(w: World, id: Id, op: Op) {
    && Works(w, id, op) && id in w.c.t.sandboxes
    && (op.kind.Cold? || op.kind.Restored? || op.kind.Clone?) && GoesUp(op.pc) && (op.pc.Parked? ==> op.kind.Clone?)
    && (op.pc.Copy? || op.pc.CreateTap? ==> RowOf(w.c, id).tap !in w.c.host.taps)
    && (HasGuest(op) <==> id in w.guests)
    && (if op.pc.Await? then id in w.machines && w.machines[id] == MachineOf(op) else RowOf(w.c, id).pid == 0)
  }

  /** The fan-out of a clone lets its parked clones go on. */
  predicate MayGoOn(w: World, op: Op) {
    op.kind.Clone? ==> op.kind.fan in w.fans && w.fans[op.kind.fan].phase.Finishing?
  }

  /** What a start leaves alone: the fan-outs, images and snapshots, the files without a row, the strays, the other
      operations, the other rows, and its own row but for the process id. */
  ghost predicate Beside(w: World, v: World, id: Id) {
    && v.fans == w.fans && v.images == w.images && v.leftover == w.leftover && v.broken == w.broken
    && v.c.t.snapshots == w.c.t.snapshots && v.c.t.ports == w.c.t.ports && v.c.seen == w.c.seen && v.c.loose == w.c.loose
    && v.c.stray == w.c.stray && v.ops - {id} == w.ops - {id} && v.machines - {id} == w.machines - {id}
    && v.guests - {id} == w.guests - {id}
    && v.c.t.sandboxes - {id} == w.c.t.sandboxes - {id}
    && (id in w.c.t.sandboxes ==> id in v.c.t.sandboxes
                                  && v.c.t.sandboxes[id] == w.c.t.sandboxes[id].(pid := v.c.t.sandboxes[id].pid))
    && (id in w.guests ==> id in v.guests && v.guests[id] == w.guests[id])
  }

  /** A command of a start changes at most its own row's process id, and adds no tap before CreateTap. */
  lemma CommandClimbs(c: Core, id: Id, op: Op)
    requires id in c.t.sandboxes
    ensures var d, row := Run(c, id, UpCommand(RowOf(c, id), op, Done)), RowOf(c, id);
            && d.t.snapshots == c.t.snapshots && d.t.ports == c.t.ports && d.seen == c.seen && d.loose == c.loose
            && d.stray == c.stray
            && d.t.sandboxes == c.t.sandboxes[id := row.(pid := if op.pc.Record? then STARTED else row.pid)]
            && (op.pc.Copy? ==> d.host.taps == c.host.taps)
  {
  }

  lemma GoesToNext(op: Op, primary: set<Rule>)
    requires GoesUp(op.pc) && !op.pc.Await? && (op.pc.Parked? ==> op.kind.Clone?)
    ensures UpNext(op, Done, primary) == GoOn(NextUp(op).pc) && NextUp(op).kind == op.kind
    ensures UpRank(NextUp(op)) + 1 == UpRank(op)
  {
  }

  lemma StepIsUp(w: World, id: Id, op: Op)
    requires ComingUp(w, id, op) && !op.pc.Await?
    ensures ComingUp(UpStep(w, id, op, Done), id, NextUp(op))
  {
    hide UpCommand, Run, Launched, Primary, UpRank, UpNext;
    CommandClimbs(w.c, id, op);
    GoesToNext(op, Primary(w.c, id));
  }

  lemma StepIsBeside(w: World, id: Id, op: Op)
    requires ComingUp(w, id, op) && !op.pc.Await?
    ensures Beside(w, UpStep(w, id, op, Done), id)
  {
    hide UpCommand, Run, Launched, Primary, UpNext;
    var v := UpStep(w, id, op, Done);
    CommandClimbs(w.c, id, op);
    assert v.ops - {id} == w.ops - {id};
    assert v.guests - {id} == w.guests - {id};
    assert v.machines - {id} == w.machines - {id};
    assert v.c.t.sandboxes - {id} == w.c.t.sandboxes - {id};
  }

  lemma OneStepUp(w: World, p: Pools, id: Id, op: Op)
    requires ComingUp(w, id, op) && (op.pc.Parked? ==> MayGoOn(w, op))
    ensures Enabled(w, Advance(id, Done)) && Apply(w, p, Advance(id, Done)) == UpStep(w, id, op, Done)
  {
    hide Enabled, Apply, AdvanceOp, ColdStep, UpStep, DownStep, ExposeStep;
    Advances(w, p, id, op, Done);
  }

  lemma LastStepUp(w: World, id: Id, op: Op)
    requires ComingUp(w, id, op) && op.pc.Await?
    ensures UpStep(w, id, op, Done) == w.(ops := w.ops - {id})
  {
    hide Primary;
  }

  /** Each event of the run is a command for sandbox id that succeeds. */
  predicate AllDone(es: seq<Event>, id: Id) {
    forall e | e in es :: e == Advance(id, Done)
  }

  lemma BesideTransitive(u: World, v: World, w: World, id: Id)
    requires Beside(u, v, id) && Beside(v, w, id)
    ensures Beside(u, w, id)
  {
  }

  lemma BesideItself(w: World, id: Id)
    ensures Beside(w, w, id)
  {
  }

  /** A start can go on, command by command, until it has only rank commands left; a clone only until it parks, or
      from there on when its fan-out lets it. */
  lemma {:induction false} Climbs(w: World, p: Pools, id: Id, op: Op, rank: nat) returns (es: seq<Event>, last: Op)
    requires ComingUp(w, id, op) && 1 <= rank <= UpRank(op) && (rank < 7 ==> MayGoOn(w, op))
    ensures EnabledRun(w, p, es) && AllDone(es, id)
    ensures var v := Exec(w, p, es);
            ComingUp(v, id, last) && last.kind == op.kind && UpRank(last) == rank && Beside(w, v, id)
    decreases UpRank(op)
  {
    hide ComingUp, Beside, UpStep, NextUp, Enabled, Apply, UpNext;
    es, last := [], op;
    BesideItself(w, id);
    if rank < UpRank(op) {
      var v := UpStep(w, id, op, Done);
      RankNotLast(w, id, op);
      GoesToNext(op, {});
      OneStepUp(w, p, id, op);
      StepIsUp(w, id, op);
      StepIsBeside(w, id, op);
      BesideFans(w, v, id);
      es, last := Climbs(v, p, id, NextUp(op), rank);
      BesideTransitive(w, v, Exec(v, p, es), id);
      RunCons(w, p, Advance(id, Done), es);
      es := [Advance(id, Done)] + es;
    }
  }

  lemma BesideFans(w: World, v: World, id: Id)
    requires Beside(w, v, id)
    ensures v.fans == w.fans
  {
  }

  lemma RankNotLast(w: World, id: Id, op: Op)
    requires ComingUp(w, id, op) && 1 < UpRank(op)
    ensures GoesUp(op.pc) && !op.pc.Await? && (op.pc.Parked? ==> UpRank(op) == 7 && op.kind.Clone?)
  {
  }

  /** Nothing works on the sandbox, and the server drives its guest through this machine. */
  predicate LiveAs(w: World, id: Id, machine: Machine) {
    && id !in w.ops && id in w.c.t.sandboxes && id in w.machines && w.machines[id] == machine && id in w.guests
  }

  /** No row is being reconciled. */
  predicate Reconciled(w: World) {
    forall id | id in w.ops :: !w.ops[id].kind.Recovery?
  }

  predicate HasSnapshot(w: World, snapId: Id, s: Snapshot) {
    snapId in w.c.t.snapshots && w.c.t.snapshots[snapId] == s && snapId in w.images
  }

  /** No fan-out has staged its disk at this path. */
  predicate NotStaged(w: World, path: string) {
    forall fan | fan in w.fans && w.fans[fan].staged :: w.fans[fan].snapshot.bakedPath != path
  }

  /** A sandbox on its way up goes live if every command succeeds. */
  lemma GoesLive(w: World, p: Pools, id: Id, op: Op) returns (es: seq<Event>)
    requires ComingUp(w, id, op) && MayGoOn(w, op)
    ensures EnabledRun(w, p, es) && AllDone(es, id)
    ensures var v := Exec(w, p, es);
            LiveAs(v, id, MachineOf(op)) && Beside(w, v, id)
  {
    hide Enabled, Apply, UpStep;
    var last;
    es, last := Climbs(w, p, id, op, 1);
    var v := Exec(w, p, es);
    OneStepUp(v, p, id, last);
    LastStepUp(v, id, last);
    var e := Advance(id, Done);
    RunCons(v, p, e, []);
    RunAppend(w, p, es, [e]);
    es := es + [e];
  }

  // --- creates ---

  function RowInserted(w: World, p: Pools, id: Id, e: Option<int>): World {
    var r := Create(w.c.t, p, id, RootfsPath(id), e);
    if r.Ok? then
      w.(c := InsertRow(LayLoose(w.c, RootfsPath(id)), id, r.value, true), ops := w.ops[id := Op(Cold, CreateTap)])
    else w
  }

  function Prepared(w: World, id: Id, e: Option<int>): World {
    w.(c := LayLoose(w.c, RootfsPath(id)), ops := w.ops[id := Op(Cold, Alloc(e))])
  }

  lemma PrepareStarts(w: World, p: Pools, id: Id, e: Option<int>)
    ensures var u := w.(ops := w.ops[id := Op(Cold, Prepare(e))]);
            Enabled(u, Advance(id, Done)) && Apply(u, p, Advance(id, Done)) == Prepared(w, id, e)
  {
    hide Enabled, Apply, AdvanceOp, UpStep, DownStep, ExposeStep, RootfsPath, LayLoose, Registered;
    Advances(w.(ops := w.ops[id := Op(Cold, Prepare(e))]), p, id, Op(Cold, Prepare(e)), Done);
  }

  lemma AllocStarts(w: World, p: Pools, id: Id, e: Option<int>)
    requires Create(w.c.t, p, id, RootfsPath(id), e).Ok?
    ensures Enabled(Prepared(w, id, e), Advance(id, Done))
    ensures Apply(Prepared(w, id, e), p, Advance(id, Done)) == RowInserted(w, p, id, e)
  {
    hide Enabled, Apply, AdvanceOp, UpStep, DownStep, ExposeStep, RootfsPath, LayLoose, Create, InsertRow;
    Advances(Prepared(w, id, e), p, id, Op(Cold, Alloc(e)), Done);
    LooseTables(w.c, RootfsPath(id), true);
  }

  /** The row of a create is inserted. */
  lemma CreateStarts(w: World, p: Pools, id: Id, e: Option<int>)
    requires Enabled(w, CreateSandbox(id, e)) && Create(w.c.t, p, id, RootfsPath(id), e).Ok?
    ensures var es := [CreateSandbox(id, e)] + [Advance(id, Done)] + [Advance(id, Done)];
            EnabledRun(w, p, es) && Exec(w, p, es) == RowInserted(w, p, id, e)
  {
    hide Create, RootfsPath, RowInserted, Prepared, Enabled, AdvanceOp;
    var a := Advance(id, Done);
    var u := Apply(w, p, CreateSandbox(id, e));
    assert u == w.(ops := w.ops[id := Op(Cold, Prepare(e))]);
    hide Apply;
    PrepareStarts(w, p, id, e);
    AllocStarts(w, p, id, e);
    RunCons(Prepared(w, id, e), p, a, []);
    RunCons(u, p, a, [a]);
    RunCons(w, p, CreateSandbox(id, e), [a] + [a]);
    assert [CreateSandbox(id, e)] + [a] + [a] == [CreateSandbox(id, e)] + ([a] + [a]);
  }

  /** Whenever no row is being reconciled, whatever else is under way, the pools have room and the allotted tap is free, a
      create can lead to a live sandbox. */
  lemma CreateCanSucceed(w: World, p: Pools, id: Id, e: Option<int>) returns (es: seq<Event>)
    requires Reconciled(w)
    requires id != "" && id !in w.ops && id !in w.c.t.sandboxes && id !in w.leftover && id !in w.guests
    requires forall d | d in w.c.seen :: d.path != RootfsPath(id)
    requires Create(w.c.t, p, id, RootfsPath(id), e).Ok? && Allot(w.c.t, p, id, RootfsPath(id), e).tap !in w.c.host.taps
    ensures EnabledRun(w, p, [CreateSandbox(id, e)] + es) && AllDone(es, id)
    ensures var v := Exec(w, p, [CreateSandbox(id, e)] + es);
            LiveAs(v, id, SdkMachine) && Beside(RowInserted(w, p, id, e), v, id)
  {
    hide Create, RootfsPath, RowInserted, Apply, Beside, ComingUp;
    assert Enabled(w, CreateSandbox(id, e));
    hide Enabled;
    CreateStarts(w, p, id, e);
    InsertedIsUp(w, p, id, e);
    var begin, a := [CreateSandbox(id, e)], Advance(id, Done);
    var fs := GoesLive(RowInserted(w, p, id, e), p, id, Op(Cold, CreateTap));
    RunAppend(w, p, begin + [a] + [a], fs);
    es := [a] + [a] + fs;
    assert begin + es == begin + [a] + [a] + fs;
  }

  lemma InsertedIsUp(w: World, p: Pools, id: Id, e: Option<int>)
    requires Create(w.c.t, p, id, RootfsPath(id), e).Ok? && Allot(w.c.t, p, id, RootfsPath(id), e).tap !in w.c.host.taps
    requires id !in w.guests
    ensures ComingUp(RowInserted(w, p, id, e), id, Op(Cold, CreateTap))
  {
    CreatedIsInsertable(w.c.t, p, id, RootfsPath(id), e);
    hide RootfsPath, Create;
  }

  // --- restores ---

  /** Whenever no row is being reconciled, whatever else is under way, the registry accepts the row, and the tap of the
      snapshot is free on the host, a restore can lead to a live sandbox. */
  lemma RestoreCanSucceed(w: World, p: Pools, id: Id, snapId: Id, s: Snapshot, e: Option<int>) returns (es: seq<Event>)
    requires Reconciled(w)
    requires id !in w.ops && id !in w.c.t.sandboxes && id !in w.leftover && id !in w.guests
    requires HasSnapshot(w, snapId, s) && NotStaged(w, s.bakedPath)
    requires History.Restored(w.c.t, p, id, s, e).Ok? && s.tap !in w.c.host.taps
    ensures EnabledRun(w, p, [RestoreSandbox(id, snapId, e)] + es) && AllDone(es, id)
    ensures var v := Exec(w, p, [RestoreSandbox(id, snapId, e)] + es);
            LiveAs(v, id, SdkMachine) && Beside(Apply(w, p, RestoreSandbox(id, snapId, e)), v, id)
  {
    hide History.Restored, RootfsPath, AdvanceOp, RemoveRuleStep, SpawnStep, RestartStep, StageStep, UnstageStep,
      Beside;
    var start := RestoreSandbox(id, snapId, e);
    var op := Op(Restored(w.images[snapId]), Copy);
    assert Enabled(w, start);
    RestoredIsUp(w, p, id, s, e, op);
    assert ComingUp(Apply(w, p, start), id, op);
    hide Apply, Enabled, ComingUp;
    es := GoesLive(Apply(w, p, start), p, id, op);
    RunCons(w, p, start, es);
  }

  lemma RestoredIsUp(w: World, p: Pools, id: Id, s: Snapshot, e: Option<int>, op: Op)
    requires var r := History.Restored(w.c.t, p, id, s, e); r.Ok? && s.tap !in w.c.host.taps
    requires id !in w.guests && op.kind.Restored? && op.pc.Copy?
    ensures ComingUp(RowStep(w, id, History.Restored(w.c.t, p, id, s, e), op), id, op)
  {
    hide CreateRestore, LeastFreePort, TapHeld, AddressHeld, PortsExhausted;
    RestoredIsLeast(w.c.t, p, id, s.bakedPath, s.tap, s.ip, e);
  }
}
