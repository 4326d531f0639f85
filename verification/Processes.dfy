/** The firecracker processes: who still drives them, and which ones nobody knows of any more. */
module Processes {
  import opened Wrappers
  import opened Pools
  import opened Tables
  import opened History
  import opened Hosts
  import opened Ledger
  import opened Commands
  import opened Lifecycle
  import opened Safety
  import opened Steps
  import opened Events
  import opened Runs

  // --- who knows of a process ---

  /** A process that is left has no row and no operation; it was cut off from the network when its tap device went, and
      if the deletion of the device failed the device is among the strays. */
  predicate ForgottenAt(w: World, id: Id) {
    id in w.leftover ==>
      && id !in w.c.t.sandboxes && id !in w.ops
      && (w.leftover[id].cutOff || w.leftover[id].tap in w.c.stray.taps)
  }

  /** Who will stop the guest: the server holds its machine, the operation that started it is still at it, or a
      reconciliation has yet to kill the process that the row names. */
  predicate Followed(w: World, id: Id) {
    || id in w.machines
    || (id in w.ops && (GoesUp(w.ops[id].pc) || w.ops[id].pc.Undo? || w.ops[id].pc.Halt?))
    || (id in w.ops && w.ops[id].kind.Recovery? && RowOf(w.c, id).pid != 0 && (w.ops[id].pc.Lookup? || w.ops[id].pc.Shutdown?))
  }

  predicate FollowedAt(w: World, id: Id) {
    id in w.c.t.sandboxes ==> (id in w.machines ==> RowOf(w.c, id).pid != 0) && (id in w.guests ==> Followed(w, id))
  }

  /** Somebody will stop the guest of id, if it has one, and it is not among the processes that are left. */
  predicate Known(w: World, id: Id) {
    FollowedAt(w, id) && id !in w.leftover
  }

  /** The guests whose process id has not reached their row. */
  function Unrecorded(w: World): set<Id> {
    set id | id in w.guests && id in w.c.t.sandboxes && w.c.t.sandboxes[id].pid == 0
  }

  // --- processes out of reach ---

  /** A guest that runs when the server crashes is out of reach if its process id has not reached its row, or if the
      server cannot list its rows when it starts again. */
  predicate Dooms(w: World, listed: bool, id: Id) {
    id in w.guests && id in w.c.t.sandboxes && (!listed || RowOf(w.c, id).pid == 0)
  }

  /** Whether the process of id is out of reach after an event: the last crash that it lived through tells, and it
      matters until the process exits. */
  predicate NowLost(w: World, ev: Event, id: Id, lost: bool) {
    match ev
    case Crash(listed) => if id in w.guests then Dooms(w, listed, id) else lost
    case GuestExit(j) => lost && j != id
    case _ => lost
  }

  ghost predicate Lost(w: World, p: Pools, es: seq<Event>, id: Id, lost: bool)
    decreases |es|
  {
    if es == [] then lost else Lost(Apply(w, p, es[0]), p, es[1..], id, NowLost(w, es[0], id, lost))
  }

  /** The pcs of an operation that will not stop the guest: the server holds no machine and the row names no process. */
  predicate PassesBy(op: Op, pid: int) {
    && (op.kind.Request? || (op.kind.Recovery? && pid == 0))
    && (op.pc.Lookup? || op.pc.Shutdown? || op.pc.DropRules? || op.pc.DestroyTap? || op.pc.DestroyDisk? || op.pc.DestroyRow?
        || op.pc.Allocate? || Exposing(op.pc))
  }

  /** The process of id runs and nobody will stop it; it is left when its row goes. */
  predicate OutOfReach(w: World, id: Id) {
    if id in w.c.t.sandboxes then id in w.guests && id !in w.machines && (id in w.ops ==> PassesBy(w.ops[id], RowOf(w.c, id).pid))
    else id in w.leftover
  }

  /** What the history says of the process and what the state says of it. */
  ghost predicate Agrees(w: World, id: Id, lost: bool) {
    ForgottenAt(w, id) && if lost then OutOfReach(w, id) else Known(w, id)
  }

  // --- events about others ---

  /** Nothing differs that matters to the process of j. */
  ghost predicate Untouched(w: World, v: World, j: Id) {
    && (j in w.c.t.sandboxes <==> j in v.c.t.sandboxes) && RowOf(v.c, j) == RowOf(w.c, j)
    && w.c.stray.taps <= v.c.stray.taps
    && (j in w.ops <==> j in v.ops) && (j in w.ops ==> v.ops[j] == w.ops[j])
    && (j in w.machines <==> j in v.machines) && (j in w.guests <==> j in v.guests)
    && (j in w.leftover <==> j in v.leftover) && (j in w.leftover ==> v.leftover[j] == w.leftover[j])
  }

  lemma UntouchedAgrees(w: World, v: World, j: Id, lost: bool)
    requires Agrees(w, j, lost) && Untouched(w, v, j)
    ensures Agrees(v, j, lost)
  {
  }

  lemma OthersUntouched(w: World, v: World, id: Id, cmd: Command, j: Id)
    requires StepFor(w, v, id, cmd) && j != id
    ensures Untouched(w, v, j)
  {
    hide Run, RootfsPath, FileOf;
  }

  lemma AsideUntouched(w: World, v: World, j: Id)
    requires Aside(w, v)
    ensures Untouched(w, v, j)
  {
  }

  lemma EventUntouched(w: World, p: Pools, ev: Event, j: Id)
    requires Enabled(w, ev) && Subject(ev) != Some(j) && !ev.Crash?
    ensures Untouched(w, Apply(w, p, ev), j)
  {
    hide Enabled, Apply, Untouched, StepFor, Aside;
    if Subject(ev).Some? {
      EventIsStep(w, p, ev, Subject(ev).value);
      OthersUntouched(w, Apply(w, p, ev), Subject(ev).value, CommandAt(w, p, ev), j);
    } else {
      EventIsAside(w, p, ev);
      AsideUntouched(w, Apply(w, p, ev), j);
    }
  }

  // --- an operation's own commands ---

  lemma ColdAgrees(w: World, p: Pools, id: Id, op: Op, out: Outcome, lost: bool)
    requires LocalInv(w, id) && Agrees(w, id, lost) && Works(w, id, op) && Rowless(op.pc)
    ensures Agrees(ColdStep(w, p, id, op, out), id, lost)
  {
    hide FreshDisk, RootfsPath, Registered, StartInv, StopInv, FullInv, ExposeInv, Launched, Complete;
  }

  /** When a start may fall back to deleting the tap there is no guest, and when it waits for the agent there is a machine. */
  lemma UpAgrees(w: World, id: Id, op: Op, out: Outcome, lost: bool)
    requires LocalInv(w, id) && Agrees(w, id, lost) && Works(w, id, op) && GoesUp(op.pc)
    ensures Agrees(UpStep(w, id, op, out), id, lost)
  {
    hide FreshDisk, RootfsPath, RowlessInv, StopInv, FullInv, ExposeInv, Primary, Launched, Owns, Complete, NoRules,
      RulesWithin, NoPorts, GuestInv;
  }

  lemma DownAgrees(w: World, id: Id, op: Op, out: Outcome, lost: bool)
    requires LocalInv(w, id) && Agrees(w, id, lost) && Works(w, id, op) && GoesDown(op.pc) && CanAdvance(w, id, op, out)
    requires RowGoes(op.pc) ==> RowOf(w.c, id).tap in w.c.host.taps ==> RowOf(w.c, id).tap in w.c.stray.taps
    ensures Agrees(DownStep(w, id, op, out), id, lost)
  {
    hide FreshDisk, RootfsPath, RowlessInv, StartInv, FullInv, ExposeInv, Primary, AllRules, Owns, Complete, NoRules,
      RulesWithin, NoPorts, GuestInv;
    if RowGoes(op.pc) {
      RowAgrees(w, id, op, out, lost);
      hide Agrees, DownStep;
    }
  }

  lemma RowAgrees(w: World, id: Id, op: Op, out: Outcome, lost: bool)
    requires LocalInv(w, id) && Agrees(w, id, lost) && Works(w, id, op) && RowGoes(op.pc)
    requires RowOf(w.c, id).tap in w.c.host.taps ==> RowOf(w.c, id).tap in w.c.stray.taps
    ensures Agrees(DownStep(w, id, op, out), id, lost)
  {
    hide FreshDisk, RootfsPath, RowlessInv, StartInv, FullInv, ExposeInv, Primary, AllRules, Owns, Complete, NoRules,
      RulesWithin, NoPorts, GuestInv;
  }

  /** A row goes only after its tap. */
  lemma GoneHasNoTap(w: World, p: Pools, id: Id, op: Op)
    requires CoreInv(w.c, p) && LocalInv(w, id) && Works(w, id, op) && RowGoes(op.pc)
    ensures RowOf(w.c, id).tap in w.c.host.taps ==> RowOf(w.c, id).tap in w.c.stray.taps
  {
    hide BookInv, FilesBalance, RulesBalance, GuestInv, MachineInv, NoRules;
    if id in w.c.t.sandboxes {
      OtherTaps(w.c, p, id);
    }
  }

  lemma ExposeAgrees(w: World, p: Pools, id: Id, op: Op, out: Outcome, lost: bool)
    requires LocalInv(w, id) && Agrees(w, id, lost) && Works(w, id, op) && (Exposing(op.pc) || op.pc.Allocate?)
    ensures Agrees(ExposeStep(w, p, id, op, out), id, lost)
  {
    hide FreshDisk, RootfsPath, RowlessInv, StartInv, StopInv, FullInv, ExposeInv, Allotted, ExtraRule, Owns, Complete,
      GuestInv;
  }

  lemma CoreOf(w: World, p: Pools)
    requires Inv(w, p)
    ensures CoreInv(w.c, p)
  {
    hide CoreInv, LocalInv, FansInv, ImagesInv, LooseInv, DisksInv, BrokenInv;
  }

  lemma IsConsistent(c: Core, p: Pools)
    requires CoreInv(c, p)
    ensures Consistent(c.t)
  {
    hide Consistent, InPools, Functional, Recorded, SeenInPools, TapsBalance, FilesBalance, RulesBalance;
  }

  lemma AdvanceAgrees(w: World, p: Pools, id: Id, op: Op, out: Outcome, lost: bool)
    requires Inv(w, p) && Agrees(w, id, lost) && Works(w, id, op) && CanAdvance(w, id, op, out)
    ensures Agrees(AdvanceOp(w, p, id, op, out), id, lost)
  {
    hide Inv, LocalInv, Agrees, Works, CanAdvance, Moved, ColdCommand, ColdNext, UpCommand, UpNext, DownCommand,
      DownNext, ExposeCommand, ExposeNext, Registered, Allotted, Primary, AllRules, BrokenInv;
    LocalOf(w, p, id);
    GoesOnward(w.c, p, id, op, out);
    if Rowless(op.pc) {
      ColdAgrees(w, p, id, op, out, lost);
    } else if GoesUp(op.pc) {
      UpAgrees(w, id, op, out, lost);
    } else if GoesDown(op.pc) {
      if RowGoes(op.pc) {
        CoreOf(w, p);
        GoneHasNoTap(w, p, id, op);
      }
      DownAgrees(w, id, op, out, lost);
    } else {
      ExposeAgrees(w, p, id, op, out, lost);
    }
  }

  // --- other events about the sandbox itself ---

  lemma RemovalAgrees(w: World, id: Id, op: Op, r: Rule, out: Outcome, lost: bool)
    requires Agrees(w, id, lost) && Works(w, id, op) && CanRemove(op.pc, r)
    ensures Agrees(RemoveRuleStep(w, id, op, r, out), id, lost)
  {
  }

  lemma RequestAgrees(w: World, p: Pools, ev: Event, id: Id, lost: bool)
    requires Enabled(w, ev) && Agrees(w, id, lost) && LocalInv(w, id) && Subject(ev) == Some(id)
    requires !ev.Advance? && !ev.RemoveRule? && !ev.GuestExit?
    ensures Agrees(Apply(w, p, ev), id, lost)
  {
    hide AdvanceOp, RemoveRuleStep, RestartStep, StageStep, UnstageStep, SnapshotStep, Create, CreateRestore,
      RootfsPath, FreshDisk, Serving, NoneStagedAt, CanStage, CanUnstage, CanSettle, Thaw, OpInv;
  }

  lemma ExitAgrees(w: World, id: Id, lost: bool)
    requires Agrees(w, id, lost)
    ensures Agrees(ExitStep(w, id), id, false)
  {
  }

  lemma RestartAgrees(w: World, listed: bool, id: Id, lost: bool)
    requires Agrees(w, id, lost) && (id in w.guests ==> id in w.c.t.sandboxes)
    ensures Agrees(RestartStep(w, listed), id, if id in w.guests then Dooms(w, listed, id) else lost)
  {
  }

  lemma ApplyAgrees(w: World, p: Pools, ev: Event, id: Id, lost: bool)
    requires Inv(w, p) && Enabled(w, ev) && Agrees(w, id, lost)
    ensures Agrees(Apply(w, p, ev), id, NowLost(w, ev, id, lost))
  {
    hide Inv, Agrees, LocalInv, BrokenInv, AdvanceOp, RemoveRuleStep, CanAdvance, CanRemove, Serving, Fresh, CanStage,
      CanUnstage, CanSettle, NoneStagedAt, RestoreStep, SpawnStep, StageStep, UnstageStep, SnapshotStep, ThawStep,
      ExitStep, RestartStep, Run;
    LocalOf(w, p, id);
    if ev.Crash? {
      GuestHasRow(w, id);
      RestartAgrees(w, ev.listed, id, lost);
    } else if Subject(ev) != Some(id) {
      EventUntouched(w, p, ev, id);
      UntouchedAgrees(w, Apply(w, p, ev), id, lost);
    } else if ev.Advance? {
      AdvanceAgrees(w, p, id, w.ops[id], ev.out, lost);
    } else if ev.RemoveRule? {
      RemovalAgrees(w, id, w.ops[id], ev.rule, ev.out, lost);
    } else if ev.GuestExit? {
      ExitAgrees(w, id, lost);
    } else {
      RequestAgrees(w, p, ev, id, lost);
    }
  }

  lemma GuestHasRow(w: World, id: Id)
    requires LocalInv(w, id)
    ensures id in w.guests ==> id in w.c.t.sandboxes
  {
    hide OpInv, MachineInv;
  }

  // --- over whole runs ---

  lemma {:induction false} RunAgrees(w: World, p: Pools, es: seq<Event>, id: Id, lost: bool)
    requires Inv(w, p) && EnabledRun(w, p, es) && Agrees(w, id, lost)
    ensures Agrees(Exec(w, p, es), id, Lost(w, p, es, id, lost))
    decreases |es|
  {
    hide Inv, Enabled, Apply, Agrees, NowLost, Spares;
    if es != [] {
      ApplyKeeps(w, p, es[0]);
      ApplyAgrees(w, p, es[0], id, lost);
      RunAgrees(Apply(w, p, es[0]), p, es[1..], id, NowLost(w, es[0], id, lost));
    }
  }

  lemma ReachableAgrees(p: Pools, es: seq<Event>, id: Id)
    requires EnabledRun(INIT, p, es)
    ensures Agrees(Exec(INIT, p, es), id, Lost(INIT, p, es, id, false))
    ensures id in Exec(INIT, p, es).guests ==> id in Exec(INIT, p, es).c.t.sandboxes
  {
    assert Agrees(INIT, id, false);
    hide Inv, LocalInv, BrokenInv, Lost, EnabledRun, Exec, Agrees;
    InitInv(p);
    ReachableInv(p, es);
    RunAgrees(INIT, p, es, id, false);
    LocalOf(Exec(INIT, p, es), p, id);
    GuestHasRow(Exec(INIT, p, es), id);
  }

  /** At every point of every run a process that nobody knows of has neither row nor operation, and it is off the
      network unless the deletion of its tap device failed. */
  lemma LeftoversAreCutOff(p: Pools, es: seq<Event>, id: Id)
    requires EnabledRun(INIT, p, es)
    ensures var w := Exec(INIT, p, es); ForgottenAt(w, id) && (id in w.leftover ==> id !in w.guests)
  {
    hide EnabledRun, Exec, Lost, OutOfReach, Known;
    ReachableAgrees(p, es, id);
  }

  /** Which processes are forgotten, exactly: a guest that runs has nobody who will stop it, and is left when its row
      goes, if and only if at the last crash that it lived through its process id had not reached its row or the server
      could then not list its rows. In particular no request, no failure and no other crash ever forgets a process. */
  lemma NothingIsForgotten(p: Pools, es: seq<Event>, id: Id)
    requires EnabledRun(INIT, p, es)
    ensures var w, lost := Exec(INIT, p, es), Lost(INIT, p, es, id, false);
            && (id in w.leftover <==> lost && id !in w.c.t.sandboxes)
            && (id in w.guests ==> id in w.c.t.sandboxes && (Followed(w, id) <==> !lost))
  {
    hide EnabledRun, Exec, Lost;
    ReachableAgrees(p, es, id);
  }

  lemma {:induction false} CrashFreeLosesNone(w: World, p: Pools, es: seq<Event>, id: Id)
    requires forall e | e in es :: !e.Crash?
    ensures !Lost(w, p, es, id, false)
    decreases |es|
  {
    hide Enabled, Apply;
    if es != [] {
      CrashFreeLosesNone(Apply(w, p, es[0]), p, es[1..], id);
    }
  }
}
