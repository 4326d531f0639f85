/** How operations end: a start that fails is rolled back or destroyed, a destroy leaves nothing, an exposure is made or
    withdrawn. */
module Endings {
  import opened Wrappers
  import opened Pools
  import opened Tables
  import opened History
  import opened Hosts
  import opened Ledger
  import opened Commands
  import opened Lifecycle
  import opened Safety
  import opened Steps
  import opened Events
  import opened Runs
  import opened Processes
  import opened Guarantees
  import opened Recovery
  import opened Liveness

  // --- down to the row ---

  /** What a descent leaves alone until the row goes. */
  ghost predicate Lowered(w: World, v: World, id: Id) {
    && v.fans == w.fans && v.images == w.images && v.c.t == w.c.t && v.c.seen == w.c.seen && v.c.loose == w.c.loose
    && v.ops - {id} == w.ops - {id} && v.leftover == w.leftover
  }

  /** What it removes: the disk, and the tap if that was still to come; and no rule that it does not know of. */
  ghost predicate Emptied(w: World, v: World, id: Id, op: Op) {
    && v.c.host.taps.Keys <= w.c.host.taps.Keys && v.c.host.files <= w.c.host.files
    && RowOf(w.c, id).rootfsPath !in v.c.host.files
    && (!DropsDiskNow(op.pc) ==> RowOf(w.c, id).tap !in v.c.host.taps)
    && (Falling(op.pc) && !op.pc.Lookup? ==> w.c.led.rules - TodoOf(op.pc) <= v.c.led.rules)
    && (Rolls(op) ==> v.c.host.rules == w.c.host.rules)
    && (PortsRead(op.pc) ==> v.c.stray == w.c.stray)
  }

  /** The part of a roll-back that touches no rule. */
  predicate Rolls(op: Op) {
    !op.kind.Clone? && (op.pc.Halt? || op.pc.RollTap? || op.pc.RollDisk? || op.pc.RollRow?)
  }

  /** One command of a descent. */
  ghost predicate StepsDown(w: World, v: World, id: Id, op: Op) {
    TakesDown(w, v, id, op) && !RowGoes(op.pc) && (PortsRead(op.pc) ==> v.c.stray == w.c.stray)
  }

  lemma LastStepEmpties(w: World, v: World, id: Id, op: Op)
    requires StepsDown(w, v, id, op) && id in v.ops && RowGoes(v.ops[id].pc)
    ensures Lowered(w, v, id) && Emptied(w, v, id, op)
  {
    hide RankOf, Stops, PortsRead;
    assert v.ops - {id} == w.ops - {id};
  }

  lemma MoreStepsLower(w: World, v: World, u: World, id: Id, op: Op)
    requires StepsDown(w, v, id, op) && Lowered(v, u, id)
    ensures Lowered(w, u, id)
  {
    hide RankOf, Stops, PortsRead, HostStep;
    assert v.ops - {id} == w.ops - {id};
  }

  lemma MoreStepsEmpty(w: World, v: World, u: World, id: Id, op: Op, next: Op)
    requires StepsDown(w, v, id, op) && Works(v, id, next) && !RowGoes(next.pc) && Emptied(v, u, id, next)
    ensures Emptied(w, u, id, op)
  {
    hide RankOf, Stops, PortsRead, ProcessStep;
  }

  /** A descent whose commands succeed comes to the point where only the row is left to delete. */
  lemma {:induction false} Descends(w: World, p: Pools, id: Id, op: Op) returns (es: seq<Event>, last: Op)
    requires Inv(w, p) && Works(w, id, op) && id in w.c.t.sandboxes && GoesDown(op.pc) && !RowGoes(op.pc)
    ensures EnabledRun(w, p, es) && forall e | e in es :: Recovers(e) && Actor(e) == Some(id)
    ensures var v := Exec(w, p, es);
            && Inv(v, p) && Works(v, id, last) && Lowered(w, v, id) && Emptied(w, v, id, op)
    ensures last.kind == op.kind && RowGoes(last.pc) && (PortsRead(last.pc) <==> PortsRead(op.pc))
    ensures Falling(op.pc) ==> last.pc.DestroyRow?
    ensures Rolls(op) ==> forall e | e in es :: e.Advance?
    decreases RankOf(w.c, id, op)
  {
    hide Inv, Enabled, Apply, RankOf, HostStep, ProcessStep, Lowered, Emptied, PortsRead, Spares;
    var e := SomethingToDo(w, id, op);
    DescentTakes(w, p, id, op, e);
    var v := Apply(w, p, e);
    ApplyKeeps(w, p, e);
    if PortsRead(op.pc) {
      SuccessLeavesNoStray(w, p, id, op, e);
    }
    SameRank(w.c, v.c, id, v.ops[id]);
    es, last := [], v.ops[id];
    if RowGoes(last.pc) {
      LastStepEmpties(w, v, id, op);
    } else {
      es, last := Descends(v, p, id, v.ops[id]);
      MoreStepsLower(w, v, Exec(v, p, es), id, op);
      MoreStepsEmpty(w, v, Exec(v, p, es), id, op, v.ops[id]);
    }
    RunCons(w, p, e, es);
    es := [e] + es;
  }

  lemma SameRank(c: Core, d: Core, id: Id, op: Op)
    requires d.t == c.t
    ensures RankOf(d, id, op) == RankOf(c, id, op)
  {
  }

  // --- the row goes ---

  /** The last step. */
  lemma RowIsDeleted(w: World, p: Pools, id: Id, op: Op)
    requires Works(w, id, op) && id in w.c.t.sandboxes && RowGoes(op.pc)
    ensures Enabled(w, Advance(id, Done))
    ensures var v := Apply(w, p, Advance(id, Done));
            && v.ops == w.ops - {id} && v.fans == w.fans && v.c.t == WithoutSandbox(w.c.t, id) && v.images == w.images
            && v.c.host == w.c.host && v.c.seen == w.c.seen && v.leftover.Keys <= w.leftover.Keys + {id}
  {
    hide Enabled, Apply, AdvanceOp, WithoutSandbox, RulesHeld, Primary, AllRules;
    Advances(w, p, id, op, Done);
  }

  /** Nothing of the sandbox that w knows is left in u: no row, port, operation, machine, guest, tap or disk; and no rule
      with its address, but for copies that are strays. */
  ghost predicate Vanished(w: World, u: World, id: Id) {
    var row := RowOf(w.c, id);
    && id !in u.c.t.sandboxes && (forall gp :: (id, gp) !in u.c.t.ports)
    && id !in u.ops && id !in u.machines && id !in u.guests
    && row.tap !in u.c.host.taps && row.rootfsPath !in u.c.host.files
    && forall r: Rule | r.ip == row.ip :: u.c.host.rules[r] <= u.c.stray.rules[r]
  }

  /** A rule with the address of a row that is gone belongs to nobody. */
  lemma GoneHasNoRules(c: Core, d: Core, p: Pools, id: Id)
    requires CoreInv(c, p) && CoreInv(d, p) && id in c.t.sandboxes && d.t == WithoutSandbox(c.t, id)
    ensures forall r: Rule | r.ip == RowOf(c, id).ip :: r !in d.led.rules && d.host.rules[r] <= d.stray.rules[r]
  {
    hide BookInv, TapsBalance, FilesBalance;
    OtherTaps(c, p, id);
    OtherRowsStay(c.t, id);
    RowsGo(c.t, id);
    hide WithoutSandbox;
  }

  /** A take-down or a roll-back that begins with its tap and whose commands succeed leaves nothing. */
  lemma Vanishes(w: World, p: Pools, id: Id, op: Op) returns (es: seq<Event>)
    requires Inv(w, p) && Works(w, id, op) && id in w.c.t.sandboxes && GoesDown(op.pc) && PortsRead(op.pc)
    requires !RowGoes(op.pc) && !DropsDiskNow(op.pc)
    ensures EnabledRun(w, p, es) && forall e | e in es :: Recovers(e) && Actor(e) == Some(id)
    ensures var u := Exec(w, p, es);
            && Inv(u, p) && Vanished(w, u, id) && u.c.stray == w.c.stray
            && (Rolls(op) ==> u.c.host.rules == w.c.host.rules && forall e | e in es :: e.Advance?)
            && forall r: Rule | r.ip == RowOf(w.c, id).ip :: r !in u.c.led.rules
  {
    hide Inv, Enabled, Apply, PortsRead, Spares, WithoutSandbox, Vanished, Rolls, Lowered, Emptied, Recovers;
    var last;
    es, last := Descends(w, p, id, op);
    var v, e := Exec(w, p, es), Advance(id, Done);
    LoweredRow(w, v, id, op);
    RowIsDeleted(v, p, id, last);
    ApplyKeeps(v, p, e);
    assert Recovers(e) by {
      DoneRecovers(id);
    }
    SuccessLeavesNoStray(v, p, id, last, e);
    RunOne(v, p, e);
    RunAppend(w, p, es, [e]);
    es := es + [e];
    LastVanishes(w, v, Exec(w, p, es), p, id, op);
  }

  lemma DoneRecovers(id: Id)
    ensures Recovers(Advance(id, Done))
  {
  }

  lemma LoweredRow(w: World, v: World, id: Id, op: Op)
    requires Lowered(w, v, id) && Emptied(w, v, id, op) && id in w.c.t.sandboxes
    ensures id in v.c.t.sandboxes && v.c.t == w.c.t
    ensures PortsRead(op.pc) ==> v.c.stray == w.c.stray
    ensures Rolls(op) ==> v.c.host.rules == w.c.host.rules
  {
    hide PortsRead;
  }

  lemma LastVanishes(w: World, v: World, u: World, p: Pools, id: Id, op: Op)
    requires Inv(w, p) && Inv(u, p) && id in w.c.t.sandboxes && !DropsDiskNow(op.pc)
    requires Lowered(w, v, id) && Emptied(w, v, id, op) && u.c.t == WithoutSandbox(w.c.t, id) && u.c.host == v.c.host
    requires u.ops == v.ops - {id}
    ensures Vanished(w, u, id) && forall r: Rule | r.ip == RowOf(w.c, id).ip :: r !in u.c.led.rules
  {
    hide Inv, CoreInv, PortsRead, WithoutSandbox, Lowered;
    CoreOf(w, p);
    CoreOf(u, p);
    GoneHasNoRules(w.c, u.c, p, id);
    RowsGo(w.c.t, id);
    NothingWithoutRow(u, p, id);
  }

  lemma RowsGo(t: Tables, id: Id)
    ensures var u := WithoutSandbox(t, id); id !in u.sandboxes && forall gp :: (id, gp) !in u.ports
  {
  }

  lemma NothingWithoutRow(u: World, p: Pools, id: Id)
    requires Inv(u, p) && id !in u.c.t.sandboxes
    ensures id !in u.machines && id !in u.guests
  {
    hide Inv, OpInv, Complete;
    LocalOf(u, p, id);
  }

  // --- a destroy ---

  lemma RequestsDestroy(w: World, p: Pools, id: Id)
    requires Reconciled(w) && id in w.c.t.sandboxes && id !in w.ops
    ensures Enabled(w, DestroySandbox(id))
    ensures Apply(w, p, DestroySandbox(id)) == w.(ops := w.ops[id := Op(Request, Lookup)])
  {
  }

  /** Whenever no row is being reconciled and nothing works on a sandbox, a destroy whose commands succeed leaves
      nothing of it, and no stray that was not there. */
  lemma DestroyLeavesNothing(p: Pools, es: seq<Event>, id: Id) returns (rest: seq<Event>)
    requires EnabledRun(INIT, p, es)
    requires var w := Exec(INIT, p, es); Reconciled(w) && id in w.c.t.sandboxes && id !in w.ops
    ensures var w, fs := Exec(INIT, p, es), [DestroySandbox(id)] + rest;
            && EnabledRun(w, p, fs) && (forall e | e in rest :: Recovers(e) && Actor(e) == Some(id))
            && Vanished(w, Exec(w, p, fs), id) && Exec(w, p, fs).c.stray == w.c.stray
  {
    hide Inv, Enabled, Apply, EnabledRun, Exec, Spares;
    var w := Exec(INIT, p, es);
    ReachableInv(p, es);
    RequestsDestroy(w, p, id);
    var e := DestroySandbox(id);
    ApplyKeeps(w, p, e);
    rest := Vanishes(Apply(w, p, e), p, id, Op(Request, Lookup));
    RunCons(w, p, e, rest);
  }

  // --- a start that fails ---

  /** A start: a create, a restore or a clone on its way up. */
  predicate Starting(w: World, id: Id, op: Op) {
    Works(w, id, op) && GoesUp(op.pc)
  }

  /** The step that fails leaves the row and the other operations, and what it does next takes the sandbox down; a guest is
      to be stopped only if one was started. */
  lemma FailureTurnsDown(w: World, p: Pools, id: Id, op: Op, out: Outcome) returns (next: Op)
    requires Inv(w, p) && Starting(w, id, op) && !out.Done? && CanAdvance(w, id, op, out)
    ensures Enabled(w, Advance(id, out))
    ensures var v := Apply(w, p, Advance(id, out));
            && v.c.t == w.c.t && id in w.c.t.sandboxes && Works(v, id, next)
    ensures next.kind == op.kind && (next.pc.Undo? || next.pc.Halt? || next.pc.RollTap? || next.pc.Lookup?)
    ensures (op.pc.ForwardOut? ==> next.pc.Halt?) && (op.pc.Await? ==> next.pc.Lookup?)
    ensures next.pc.RollTap? <==> op.pc.Copy? || op.pc.CreateTap? || op.pc.Launch? || (op.pc.Attach? && !op.kind.Clone?)
    ensures Apply(w, p, Advance(id, out)).machines == w.machines
    ensures Apply(w, p, Advance(id, out)).c.host.rules == w.c.host.rules
  {
    hide Inv, Enabled, Apply, AdvanceOp, ColdStep, DownStep, ExposeStep, Primary;
    Advances(w, p, id, op, out);
    next := UpStep(w, id, op, out).ops[id];
  }

  /** A copy that breaks off leaves a file, and a tap that could not be brought up is there, off the bridge: both are still
      the sandbox's, and the roll-back will find them. */
  lemma HalfIsThere(w: World, p: Pools, id: Id, op: Op)
    requires Inv(w, p) && Starting(w, id, op) && CanAdvance(w, id, op, Half)
    ensures var c, row := Apply(w, p, Advance(id, Half)).c, RowOf(w.c, id);
            && (op.pc.Copy? ==> row.rootfsPath in c.host.files && id in c.led.files)
            && (op.pc.CreateTap? ==> row.tap in c.host.taps && !Bridged(c, id) && id in c.led.taps)
  {
    hide Inv, LocalInv, Enabled, Apply, AdvanceOp, ColdStep, DownStep, ExposeStep, Primary;
    LocalOf(w, p, id);
    StartHasRow(w, id, op);
    Advances(w, p, id, op, Half);
  }

  /** What a failing command of a start leaves to nobody: the first rule of a create or restore, if it is the second that
      fails. */
  lemma FailureLeaves(w: World, p: Pools, id: Id, op: Op, out: Outcome)
    requires Inv(w, p) && Starting(w, id, op) && !out.Done? && CanAdvance(w, id, op, out)
    ensures Apply(w, p, Advance(id, out)).c.stray ==
            if op.pc.ForwardOut? && !op.kind.Clone?
            then w.c.stray.(rules := w.c.stray.rules + multiset{PreRule(RowOf(w.c, id))})
            else w.c.stray
  {
    hide Inv, LocalInv, BrokenInv, Enabled, Apply, OnHost, PreRule;
    Advances(w, p, id, op, out);
    LocalOf(w, p, id);
    FirstRuleInForce(w, id, op);
    StraysExactly(w, p, Advance(id, out));
    assert multiset({PreRule(RowOf(w.c, id))}) == multiset{PreRule(RowOf(w.c, id))};
  }

  lemma FirstRuleInForce(w: World, id: Id, op: Op)
    requires LocalInv(w, id) && Works(w, id, op)
    ensures op.pc.ForwardOut? ==> PreRule(RowOf(w.c, id)) in w.c.led.rules
  {
    hide GuestInv, MachineInv, StopInv, FullInv, ExposeInv, RowlessInv, Wired, NoPorts, NoRules, Complete;
  }

  /** The ways in which a command ends other than Done: any, but a device that exists is not half made, and a parked clone
      only waits. */
  predicate CanEnd(w: World, id: Id, op: Op, out: Outcome) {
    !out.Done? && !op.pc.Parked? && (op.pc.CreateTap? && out.Half? ==> RowOf(w.c, id).tap !in w.c.host.taps)
  }

  lemma AnyCommandCanFail(w: World, p: Pools, id: Id, op: Op, out: Outcome)
    requires Inv(w, p) && Works(w, id, op) && (GoesUp(op.pc) || op.pc.Prepare? || op.pc.Alloc?)
    requires CanEnd(w, id, op, out)
    ensures CanAdvance(w, id, op, out) && !out.Done?
  {
    hide Inv, LocalInv;
    LocalOf(w, p, id);
    if GoesUp(op.pc) {
      StartHasRow(w, id, op);
    }
  }

  /** From any reachable state with a start under way, of whatever kind and however far: if its next command ends other
      than Done, commands that succeed lead to a state in which nothing of the sandbox is left. One thing becomes a
      stray: the PREROUTING rule of a create or restore whose OUTPUT rule could not be added. */
  lemma FailedStartVanishes(p: Pools, es: seq<Event>, id: Id, op: Op, out: Outcome) returns (rest: seq<Event>)
    requires EnabledRun(INIT, p, es) && Starting(Exec(INIT, p, es), id, op)
    requires CanEnd(Exec(INIT, p, es), id, op, out)
    ensures var w, fs := Exec(INIT, p, es), [Advance(id, out)] + rest;
            && EnabledRun(w, p, fs) && (forall e | e in rest :: Recovers(e) && Actor(e) == Some(id))
            && id in w.c.t.sandboxes && Vanished(w, Exec(w, p, fs), id)
            && Exec(w, p, fs).c.stray ==
               if op.pc.ForwardOut? && !op.kind.Clone?
               then w.c.stray.(rules := w.c.stray.rules + multiset{PreRule(RowOf(w.c, id))})
               else w.c.stray
  {
    hide Inv, Enabled, Apply, EnabledRun, Exec, Spares, CanAdvance, CanEnd, PreRule, Rolls;
    ReachableInv(p, es);
    var w, e := Exec(INIT, p, es), Advance(id, out);
    AnyCommandCanFail(w, p, id, op, out);
    var next := FailureTurnsDown(w, p, id, op, out);
    FailureLeaves(w, p, id, op, out);
    ApplyKeeps(w, p, e);
    rest := Vanishes(Apply(w, p, e), p, id, next);
    RunCons(w, p, e, rest);
  }

  lemma StartHasRow(w: World, id: Id, op: Op)
    requires LocalInv(w, id) && Starting(w, id, op)
    ensures id in w.c.t.sandboxes
  {
    hide GuestInv, MachineInv, StartInv;
  }

  /** When the second iptables command of a create or restore fails, the roll-back succeeds and the row goes, but the
      PREROUTING rule stays in force: it is in no ledger, and no row calls for it. */
  lemma HalfForwardLeaks(w: World, p: Pools, id: Id, op: Op) returns (es: seq<Event>)
    requires Inv(w, p) && Starting(w, id, op) && op.pc.ForwardOut? && !op.kind.Clone?
    ensures EnabledRun(w, p, es) && forall e | e in es :: e.Advance? && Actor(e) == Some(id)
    ensures var v, r := Exec(w, p, es), PreRule(RowOf(w.c, id));
            && id !in v.c.t.sandboxes && id !in v.ops
            && r in w.c.host.rules && v.c.host.rules == w.c.host.rules
            && r !in v.c.led.rules && v.c.stray.rules == w.c.stray.rules + multiset{r}
  {
    hide Inv, LocalInv, BrokenInv, Enabled, Apply, Spares;
    var e := Advance(id, Failed);
    LocalOf(w, p, id);
    IsInForce(w, p);
    FirstRuleInForce(w, id, op);
    StartHasRow(w, id, op);
    var next := FailureTurnsDown(w, p, id, op, Failed);
    FailureLeaves(w, p, id, op, Failed);
    ApplyKeeps(w, p, e);
    es := Vanishes(Apply(w, p, e), p, id, next);
    RunCons(w, p, e, es);
    es := [e] + es;
  }

  // --- and does not come to life ---

  predicate Live(w: World, id: Id) {
    id in w.machines && id !in w.ops
  }

  /** No start is under way, and a machine is only held until the take-down has begun. */
  predicate NotComing(w: World, id: Id) {
    && (id in w.ops ==> !GoesUp(w.ops[id].pc) && !w.ops[id].pc.Prepare? && !w.ops[id].pc.Alloc?)
    && (id in w.machines ==> id in w.ops && (w.ops[id].pc.Lookup? || w.ops[id].pc.Shutdown?))
  }

  /** The take-down of a sandbox with a machine is given up because its row cannot be read. */
  predicate GivenUp(w: World, ev: Event, id: Id) {
    ev == Advance(id, Failed) && id in w.ops && w.ops[id].pc.Lookup? && id in w.machines
  }

  predicate StartOf(ev: Event, id: Id) {
    (ev.CreateSandbox? || ev.RestoreSandbox? || ev.SpawnClone?) && ev.id == id
  }

  lemma OwnStaysDown(w: World, id: Id, op: Op, out: Outcome)
    requires NotComing(w, id) && Works(w, id, op) && GoesDown(op.pc)
    ensures var v := DownStep(w, id, op, out); if GivenUp(w, Advance(id, out), id) then Live(v, id) else NotComing(v, id)
  {
    hide Primary, AllRules, Run, Stops;
  }

  lemma AdvanceStaysDown(w: World, p: Pools, id: Id, op: Op, out: Outcome)
    requires NotComing(w, id) && Works(w, id, op) && CanAdvance(w, id, op, out)
    ensures var v := Apply(w, p, Advance(id, out)); if GivenUp(w, Advance(id, out), id) then Live(v, id) else NotComing(v, id)
  {
    hide Enabled, Apply, AdvanceOp, UpStep, DownStep, Registered, Allotted, Run;
    Advances(w, p, id, op, out);
    GoesOnward(w.c, p, id, op, out);
    if GoesDown(op.pc) {
      OwnStaysDown(w, id, op, out);
    }
  }

  lemma StaysDown(w: World, p: Pools, ev: Event, id: Id)
    requires NotComing(w, id) && Enabled(w, ev) && !StartOf(ev, id)
    ensures if GivenUp(w, ev, id) then Live(Apply(w, p, ev), id) else NotComing(Apply(w, p, ev), id)
  {
    hide Enabled, AdvanceOp, RestoreStep, SpawnStep, StageStep, UnstageStep, SnapshotStep, Run, CommandOf, NextOf,
      Moved, Thaw, StepFor, RestartStep, RemoveRuleStep;
    if ev.Crash? {
      RestartStaysDown(w, ev.listed, id);
    } else if Subject(ev) != Some(id) {
      EventUntouched(w, p, ev, id);
      hide Apply;
    } else if ev.Advance? {
      OpWorks(w, ev);
      AdvanceStaysDown(w, p, id, w.ops[id], ev.out);
      hide Apply;
    } else {
      OthersOfIt(w, p, ev, id);
      hide Apply;
    }
  }

  lemma RestartStaysDown(w: World, listed: bool, id: Id)
    ensures NotComing(RestartStep(w, listed), id)
  {
    hide CutLoose;
  }

  /** Requests, removals and guests. */
  lemma OthersOfIt(w: World, p: Pools, ev: Event, id: Id)
    requires NotComing(w, id) && Enabled(w, ev) && Subject(ev) == Some(id) && !StartOf(ev, id) && !ev.Advance?
    ensures NotComing(Apply(w, p, ev), id)
  {
    hide AdvanceOp, RestoreStep, SpawnStep, StageStep, UnstageStep, SnapshotStep, RestartStep, Run, Thaw, Fresh,
      CanAdvance, CanStage, CanUnstage, CanSettle, NoneStagedAt, Serving;
  }

  ghost predicate EverLive(w: World, p: Pools, es: seq<Event>, id: Id)
    decreases |es|
  {
    Live(w, id) || (es != [] && EverLive(Apply(w, p, es[0]), p, es[1..], id))
  }

  ghost predicate EverGivenUp(w: World, p: Pools, es: seq<Event>, id: Id)
    decreases |es|
  {
    es != [] && (GivenUp(w, es[0], id) || EverGivenUp(Apply(w, p, es[0]), p, es[1..], id))
  }

  lemma {:induction false} LiveIffGivenUp(w: World, p: Pools, es: seq<Event>, id: Id)
    requires NotComing(w, id) && EnabledRun(w, p, es) && forall e | e in es :: !StartOf(e, id)
    ensures EverLive(w, p, es, id) <==> EverGivenUp(w, p, es, id)
    decreases |es|
  {
    hide Enabled, Apply, StartOf, GivenUp;
    if es != [] {
      StaysDown(w, p, es[0], id);
      if !GivenUp(w, es[0], id) {
        LiveIffGivenUp(Apply(w, p, es[0]), p, es[1..], id);
      }
    }
  }

  lemma FailureIsNotComing(w: World, p: Pools, id: Id, op: Op, out: Outcome)
    requires Inv(w, p) && Works(w, id, op) && (GoesUp(op.pc) || op.pc.Prepare? || op.pc.Alloc?)
    requires !out.Done? && CanAdvance(w, id, op, out)
    ensures Enabled(w, Advance(id, out)) && NotComing(Apply(w, p, Advance(id, out)), id)
  {
    hide Inv, LocalInv, BrokenInv, Enabled, Apply, CanAdvance, AdvanceOp, UpStep, DownStep, ExposeStep, Registered, Run;
    Advances(w, p, id, op, out);
    LocalOf(w, p, id);
    OnlyAwaitHasMachine(w, id, op);
    if GoesUp(op.pc) {
      var _ := FailureTurnsDown(w, p, id, op, out);
    }
  }

  lemma OnlyAwaitHasMachine(w: World, id: Id, op: Op)
    requires LocalInv(w, id) && Works(w, id, op)
    ensures GoesUp(op.pc) || Rowless(op.pc) ==> (id in w.machines <==> op.pc.Await?)
  {
    hide GuestInv, Complete, Wired, NoRules, RulesWithin, NoPorts, StopInv, FullInv, ExposeInv, FreshDisk, RootfsPath;
  }

  /** No run brings a sandbox to life out of a start whose last command did not end Done: until its id is used for
      another start it is never live; with one exception, and that without fail: the destroy that follows when its agent
      did not answer cannot read the row, and gives up. */
  lemma FailedStartIsNeverLive(p: Pools, es: seq<Event>, id: Id, op: Op, out: Outcome, fs: seq<Event>)
    requires EnabledRun(INIT, p, es) && Works(Exec(INIT, p, es), id, op)
    requires (GoesUp(op.pc) || op.pc.Prepare? || op.pc.Alloc?)
    requires CanEnd(Exec(INIT, p, es), id, op, out)
    requires EnabledRun(Apply(Exec(INIT, p, es), p, Advance(id, out)), p, fs) && forall e | e in fs :: !StartOf(e, id)
    ensures var v := Apply(Exec(INIT, p, es), p, Advance(id, out)); EverLive(v, p, fs, id) <==> EverGivenUp(v, p, fs, id)
  {
    hide Inv, Enabled, Apply, EnabledRun, Exec, EverLive, EverGivenUp, CanAdvance, CanEnd, NotComing;
    ReachableInv(p, es);
    AnyCommandCanFail(Exec(INIT, p, es), p, id, op, out);
    FailureIsNotComing(Exec(INIT, p, es), p, id, op, out);
    LiveIffGivenUp(Apply(Exec(INIT, p, es), p, Advance(id, out)), p, fs, id);
  }

  // --- an exposure ---

  /** The operation of an exposure, its port in the registry. */
  predicate Exposes(w: World, id: Id, gp: int, hp: int, pc: Pc) {
    && Works(w, id, Op(Request, pc)) && id in w.c.t.sandboxes && (id, gp) in w.c.t.ports && w.c.t.ports[(id, gp)] == hp
  }

  /** u is w but for the tables, the rules, the strays and the operation of id. */
  ghost predicate OnlyRules(w: World, u: World, id: Id, t: Tables, rules: multiset<Rule>, lost: multiset<Rule>) {
    && u.c.t == t && u.c.host == w.c.host.(rules := w.c.host.rules + rules)
    && u.c.stray == w.c.stray.(rules := w.c.stray.rules + lost)
    && u.ops - {id} == w.ops - {id} && u.machines == w.machines && u.guests == w.guests && u.broken == w.broken
  }

  /** A new port of a sandbox on which nothing works, while no row is being reconciled. */
  predicate Exposable(w: World, id: Id, gp: int) {
    && Reconciled(w) && id in w.c.t.sandboxes && id !in w.ops && 1 <= gp <= 65535 && gp != PRIMARY_PORT
    && (id, gp) !in w.c.t.ports
  }

  lemma PortIsRequested(w: World, p: Pools, id: Id, gp: int, hp: int) returns (es: seq<Event>)
    requires Exposable(w, id, gp) && AddPort(w.c.t, p, id, gp) == Ok(hp)
    ensures es == [ExposePort(id, gp)] + [Advance(id, Done)] && EnabledRun(w, p, es)
    ensures var v := Exec(w, p, es);
            && Exposes(v, id, gp, hp, ExposePre(gp))
            && OnlyRules(w, v, id, WithPort(w.c.t, id, gp, hp), multiset{}, multiset{})
  {
    hide AdvanceOp, AddPort, OnlyRules, Exposes;
    var a := w.(ops := w.ops[id := Op(Request, Allocate(gp))]);
    assert Apply(w, p, ExposePort(id, gp)) == a && id in w.c.t.sandboxes;
    hide Enabled, Apply;
    PortIsAllocated(w, a, p, id, gp, hp);
    RunOne(a, p, Advance(id, Done));
    RunCons(w, p, ExposePort(id, gp), [Advance(id, Done)]);
    es := [ExposePort(id, gp)] + [Advance(id, Done)];
  }

  lemma PortIsAllocated(w: World, a: World, p: Pools, id: Id, gp: int, hp: int)
    requires a == w.(ops := w.ops[id := Op(Request, Allocate(gp))]) && id in w.c.t.sandboxes
    requires AddPort(w.c.t, p, id, gp) == Ok(hp)
    ensures Enabled(a, Advance(id, Done))
    ensures var v := Apply(a, p, Advance(id, Done));
            && Exposes(v, id, gp, hp, ExposePre(gp))
            && OnlyRules(w, v, id, WithPort(w.c.t, id, gp, hp), multiset{}, multiset{})
  {
    hide Enabled, Apply, AdvanceOp, ColdStep, UpStep, DownStep, AddPort, LayDisk, DropDisk, InsertRow, RemoveRow,
      DropTap, Launched;
    Advances(a, p, id, Op(Request, Allocate(gp)), Done);
    assert ExposeStep(a, p, id, Op(Request, Allocate(gp)), Done).ops - {id} == w.ops - {id};
  }

  /** The two commands, and the withdrawal. */
  lemma RuleIsAdded(w: World, p: Pools, id: Id, gp: int, hp: int, first: bool)
    requires Exposes(w, id, gp, hp, if first then ExposePre(gp) else ExposeOut(gp))
    ensures Enabled(w, Advance(id, Done))
    ensures var v, r := Apply(w, p, Advance(id, Done)),
                        Rule(if first then Prerouting else Output, hp, RowOf(w.c, id).ip, gp);
            && OnlyRules(w, v, id, w.c.t, multiset{r}, multiset{}) && r in v.c.led.rules
            && if first then Exposes(v, id, gp, hp, ExposeOut(gp)) else id !in v.ops
  {
    hide Enabled, Apply, AdvanceOp, ColdStep, UpStep, DownStep, Allotted, LayDisk, DropDisk, InsertRow, RemoveRow,
      DropTap, AddTap, AttachTap, Launched;
    var op := Op(Request, if first then ExposePre(gp) else ExposeOut(gp));
    Advances(w, p, id, op, Done);
    assert ExposeStep(w, p, id, op, Done).ops - {id} == w.ops - {id};
  }

  lemma RuleFails(w: World, p: Pools, id: Id, gp: int, hp: int, first: bool, out: Outcome)
    requires Exposes(w, id, gp, hp, if first then ExposePre(gp) else ExposeOut(gp)) && !out.Done?
    requires !first ==> Rule(Prerouting, hp, RowOf(w.c, id).ip, gp) in w.c.led.rules
    ensures Enabled(w, Advance(id, out))
    ensures var v, r := Apply(w, p, Advance(id, out)), Rule(Prerouting, hp, RowOf(w.c, id).ip, gp);
            && OnlyRules(w, v, id, w.c.t, multiset{}, if first then multiset{} else multiset{r})
            && Exposes(v, id, gp, hp, Unexpose(gp))
  {
    hide Enabled, Apply, OnlyRules;
    if first {
      FirstFails(w, p, id, gp, hp, out);
    } else {
      SecondFails(w, p, id, gp, hp, out);
    }
  }

  lemma FirstFails(w: World, p: Pools, id: Id, gp: int, hp: int, out: Outcome)
    requires Exposes(w, id, gp, hp, ExposePre(gp)) && !out.Done?
    ensures Enabled(w, Advance(id, out))
    ensures var v := Apply(w, p, Advance(id, out));
            && OnlyRules(w, v, id, w.c.t, multiset{}, multiset{})
            && Exposes(v, id, gp, hp, Unexpose(gp))
  {
    hide Enabled, Apply, AdvanceOp, ColdStep, UpStep, DownStep, Allotted, LayDisk, DropDisk, InsertRow, RemoveRow,
      DropTap, AddTap, AttachTap, Launched, AppendRule;
    Advances(w, p, id, Op(Request, ExposePre(gp)), out);
    assert ExposeStep(w, p, id, Op(Request, ExposePre(gp)), out).ops - {id} == w.ops - {id};
  }

  lemma SecondFails(w: World, p: Pools, id: Id, gp: int, hp: int, out: Outcome)
    requires Exposes(w, id, gp, hp, ExposeOut(gp)) && !out.Done?
    requires Rule(Prerouting, hp, RowOf(w.c, id).ip, gp) in w.c.led.rules
    ensures Enabled(w, Advance(id, out))
    ensures var v, r := Apply(w, p, Advance(id, out)), Rule(Prerouting, hp, RowOf(w.c, id).ip, gp);
            && OnlyRules(w, v, id, w.c.t, multiset{}, multiset{r})
            && Exposes(v, id, gp, hp, Unexpose(gp))
  {
    hide Enabled, Apply, AdvanceOp, ColdStep, UpStep, DownStep, Allotted, LayDisk, DropDisk, InsertRow, RemoveRow,
      DropTap, AddTap, AttachTap, Launched, AppendRule;
    Advances(w, p, id, Op(Request, ExposeOut(gp)), out);
    assert ExposeStep(w, p, id, Op(Request, ExposeOut(gp)), out).ops - {id} == w.ops - {id};
  }

  lemma PortIsWithdrawn(w: World, p: Pools, id: Id, gp: int, hp: int)
    requires Exposes(w, id, gp, hp, Unexpose(gp))
    ensures Enabled(w, Advance(id, Done))
    ensures var v := Apply(w, p, Advance(id, Done));
            OnlyRules(w, v, id, WithoutPort(w.c.t, id, gp), multiset{}, multiset{}) && id !in v.ops
  {
    hide Enabled, Apply, AdvanceOp, ColdStep, UpStep, DownStep, Allotted, LayDisk, DropDisk, InsertRow, RemoveRow,
      DropTap, AddTap, AttachTap, Launched;
    Advances(w, p, id, Op(Request, Unexpose(gp)), Done);
    assert ExposeStep(w, p, id, Op(Request, Unexpose(gp)), Done).ops - {id} == w.ops - {id};
  }

  /** Whenever a new port can be exposed and a host port is left, commands that succeed list it under
      the least free host port and put both its rules in force, and change nothing else. */
  lemma ExposureSucceeds(p: Pools, es: seq<Event>, id: Id, gp: int) returns (fs: seq<Event>, hp: int)
    requires EnabledRun(INIT, p, es)
    requires var w := Exec(INIT, p, es); Exposable(w, id, gp) && |w.c.t.sandboxes| + |w.c.t.ports| < |PortPool(p)|
    ensures var w := Exec(INIT, p, es);
            var u := Exec(w, p, fs);
            && EnabledRun(w, p, fs) && fs == [ExposePort(id, gp)] + [Advance(id, Done)] + [Advance(id,
                                                                                                   Done)] + [Advance(id, Done)]
            && id in w.c.t.sandboxes
            && var ip := RowOf(w.c, id).ip;
            && LeastFreePort(w.c.t, p, hp) && u.c.t == w.c.t.(ports := w.c.t.ports[(id, gp) := hp])
            && u.c.host == w.c.host.(rules := w.c.host.rules + multiset{Rule(Prerouting, hp, ip, gp), Rule(Output, hp, ip, gp)})
            && u.ops == w.ops && u.machines == w.machines && u.guests == w.guests && u.c.stray == w.c.stray
  {
    hide Inv, Apply, EnabledRun, Exec, PortPool, LeastFreePort, AddPort, OnlyRules, Exposes, Enabled;
    var w, done := Exec(INIT, p, es), Advance(id, Done);
    ReachableInv(p, es);
    hp := AllottedPort(w, p, id, gp);
    fs := PortIsRequested(w, p, id, gp, hp);
    var a := Exec(w, p, fs);
    RuleIsAdded(a, p, id, gp, hp, true);
    RunOne(a, p, done);
    RunAppend(w, p, fs, [done]);
    fs := fs + [done];
    var b := Exec(w, p, fs);
    RuleIsAdded(b, p, id, gp, hp, false);
    RunOne(b, p, done);
    RunAppend(w, p, fs, [done]);
    fs := fs + [done];
    BothAdded(w, a, b, Exec(w, p, fs), id, gp, hp);
  }

  lemma AllottedPort(w: World, p: Pools, id: Id, gp: int) returns (hp: int)
    requires Inv(w, p) && Exposable(w, id, gp) && |w.c.t.sandboxes| + |w.c.t.ports| < |PortPool(p)|
    ensures AddPort(w.c.t, p, id, gp) == Ok(hp) && LeastFreePort(w.c.t, p, hp)
    ensures id in w.c.t.sandboxes && (id, gp) !in w.c.t.ports && id !in w.ops
  {
    hide Inv, PortPool, Consistent, InPools, AddPort, LeastFreePort, PortsExhausted, Serving, CanAdvance, Fresh,
      CanStage, CanUnstage, CanSettle;
    CoreOf(w, p);
    PortAdmission(w.c.t, p, id, gp);
    AllottedIsLeast(w.c.t, p, id, gp);
    hp := AddPort(w.c.t, p, id, gp).value;
  }

  lemma BothAdded(w: World, a: World, b: World, u: World, id: Id, gp: int, hp: int)
    requires id in w.c.t.sandboxes && id !in w.ops && id !in u.ops
    requires var ip := RowOf(w.c, id).ip;
             && OnlyRules(w, a, id, WithPort(w.c.t, id, gp, hp), multiset{}, multiset{})
             && OnlyRules(a, b, id, a.c.t, multiset{Rule(Prerouting, hp, RowOf(a.c, id).ip, gp)}, multiset{})
             && OnlyRules(b, u, id, b.c.t, multiset{Rule(Output, hp, RowOf(b.c, id).ip, gp)}, multiset{})
    ensures var ip := RowOf(w.c, id).ip;
            && u.c.t == w.c.t.(ports := w.c.t.ports[(id, gp) := hp])
            && u.c.host == w.c.host.(rules := w.c.host.rules + multiset{Rule(Prerouting, hp, ip, gp), Rule(Output, hp, ip, gp)})
            && u.ops == w.ops && u.machines == w.machines && u.guests == w.guests && u.c.stray == w.c.stray
  {
    assert u.ops == u.ops - {id} && w.ops == w.ops - {id};
  }

  /** When one of the two rules of a new port cannot be added, commands that succeed withdraw the port: the tables are as
      they were, and the host is but for the first rule of a port whose second failed, which becomes a stray. */
  lemma ExposureIsWithdrawn(p: Pools, es: seq<Event>, id: Id, gp: int, first: bool, out: Outcome) returns (fs: seq<Event>)
    requires EnabledRun(INIT, p, es) && !out.Done?
    requires var w := Exec(INIT, p, es); Exposable(w, id, gp) && |w.c.t.sandboxes| + |w.c.t.ports| < |PortPool(p)|
    ensures var w := Exec(INIT, p, es);
            var u := Exec(w, p, fs);
            && EnabledRun(w, p, fs)
            && fs == [ExposePort(id, gp)] + [Advance(id, Done)] + (if first then [] else [Advance(id, Done)])
                     + [Advance(id, out)] + [Advance(id, Done)]
            && id in w.c.t.sandboxes && u.c.t == w.c.t && u.ops == w.ops && u.machines == w.machines && u.guests == w.guests
            && exists hp ::
                 var lost := if first then multiset{} else multiset{Rule(Prerouting, hp, RowOf(w.c, id).ip, gp)};
                 && u.c.host == w.c.host.(rules := w.c.host.rules + lost)
                 && u.c.stray == w.c.stray.(rules := w.c.stray.rules + lost)
  {
    hide Inv, Apply, EnabledRun, Exec, PortPool, LeastFreePort, AddPort, Exposes, Enabled;
    var w, done, fail := Exec(INIT, p, es), Advance(id, Done), Advance(id, out);
    ReachableInv(p, es);
    var hp := AllottedPort(w, p, id, gp);
    fs := PortIsRequested(w, p, id, gp, hp);
    var a := Exec(w, p, fs);
    var b := a;
    if !first {
      RuleIsAdded(a, p, id, gp, hp, true);
      RunOne(a, p, done);
      RunAppend(w, p, fs, [done]);
      fs := fs + [done];
      b := Exec(w, p, fs);
    } else {
      NothingAdded(a, id);
      assert fs == fs + [];
    }
    RuleFails(b, p, id, gp, hp, first, out);
    RunOne(b, p, fail);
    RunAppend(w, p, fs, [fail]);
    fs := fs + [fail];
    var c := Exec(w, p, fs);
    PortIsWithdrawn(c, p, id, gp, hp);
    RunOne(c, p, done);
    RunAppend(w, p, fs, [done]);
    fs := fs + [done];
    AllWithdrawn(w, a, b, c, Exec(w, p, fs), id, gp, hp, first);
  }

  lemma NothingAdded(a: World, id: Id)
    ensures OnlyRules(a, a, id, a.c.t, multiset{}, multiset{})
  {
  }

  lemma AllWithdrawn(w: World, a: World, b: World, c: World, u: World, id: Id, gp: int, hp: int, first: bool)
    requires id in w.c.t.sandboxes && id !in w.ops && id !in u.ops && (id, gp) !in w.c.t.ports
    requires OnlyRules(w, a, id, WithPort(w.c.t, id, gp, hp), multiset{}, multiset{})
    requires OnlyRules(a, b, id, a.c.t, if first then multiset{}
                       else multiset{Rule(Prerouting, hp, RowOf(a.c, id).ip, gp)}, multiset{})
    requires OnlyRules(b, c, id, b.c.t, multiset{}, if first then multiset{}
                       else multiset{Rule(Prerouting, hp, RowOf(b.c, id).ip, gp)})
    requires OnlyRules(c, u, id, WithoutPort(c.c.t, id, gp), multiset{}, multiset{})
    ensures var lost := if first then multiset{} else multiset{Rule(Prerouting, hp, RowOf(w.c, id).ip, gp)};
            && u.c.t == w.c.t && u.ops == w.ops && u.machines == w.machines && u.guests == w.guests
            && u.c.host == w.c.host.(rules := w.c.host.rules + lost)
            && u.c.stray == w.c.stray.(rules := w.c.stray.rules + lost)
  {
    assert u.ops == u.ops - {id} && w.ops == w.ops - {id};
    assert w.c.t.ports[(id, gp) := hp] - {(id, gp)} == w.c.t.ports;
  }
}
