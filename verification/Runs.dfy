/** Whole runs of the server: any interleaving of requests, host commands with any outcome, guests and crashes. */
module Runs {
  import opened Wrappers
  import opened Pools
  import opened Tables
  import opened History
  import opened Hosts
  import opened Ledger
  import opened Commands
  import opened Lifecycle
  import opened Safety
  import opened Steps
  import opened Reachable
  import opened Events

  // --- one event ---

  /** The sandbox on whose behalf an event acts on the host or the registry. */
  function Actor(ev: Event): Option<Id> {
    match ev
    case CreateSandbox(id, _) => Some(id)
    case RestoreSandbox(id, _, _) => Some(id)
    case DestroySandbox(id) => Some(id)
    case ExposePort(id, _) => Some(id)
    case SetTimeout(id, _) => Some(id)
    case SpawnClone(_, id, _) => Some(id)
    case Advance(id, _) => Some(id)
    case RemoveRule(id, _, _) => Some(id)
    case _ => None
  }

  /** No sandbox is touched but the one that the event acts for; by a staged disk perhaps another's path. */
  ghost predicate Spares(c: Core, d: Core, ev: Event) {
    if ev.StageBaked? || ev.UnstageBaked? then AllSameButDisks(c, d)
    else if Actor(ev).Some? then OthersSame(c, d, Actor(ev).value)
    else AllSame(c, d)
  }

  lemma SnapshotsSpare(c: Core, snapshots: map<Id, Snapshot>)
    ensures AllSame(c, c.(t := c.t.(snapshots := snapshots)))
  {
  }

  /** Every event of a request keeps the invariant. */
  lemma RequestKeeps(w: World, p: Pools, ev: Event)
    requires Inv(w, p) && Enabled(w, ev)
    requires ev.CreateSandbox? || ev.RestoreSandbox? || ev.DestroySandbox? || ev.ExposePort? || ev.SetTimeout? || ev.TakeSnapshot?
             || ev.DeleteSnapshot?
    ensures Inv(Apply(w, p, ev), p) && Spares(w.c, Apply(w, p, ev).c, ev)
  {
    hide Inv, RestoreStep, Serving, Fresh, NoneStagedAt, AllSame, OthersSame;
    SnapshotsSpare(w.c, Apply(w, p, ev).c.t.snapshots);
    match ev
    case CreateSandbox(id, e) =>
      CreateKeeps(w, p, id, e);
      SameAsItself(w.c, id);
    case RestoreSandbox(id, snapId, e) => RestoreKeeps(w, p, id, snapId, e);
    case DestroySandbox(id) =>
      Events.RequestKeeps(w, p, id, Op(Request, Lookup));
      SameAsItself(w.c, id);
    case ExposePort(id, gp) =>
      Events.RequestKeeps(w, p, id, Op(Request, Allocate(gp)));
      SameAsItself(w.c, id);
    case SetTimeout(id, e) => TimeoutKeeps(w, p, id, e);
    case TakeSnapshot(id, snapId, frozen) => TakeSnapshotKeeps(w, p, id, snapId, frozen);
    case DeleteSnapshot(snapId) => DeleteSnapshotKeeps(w, p, snapId);
  }

  /** Every event keeps the invariant, and spares the other sandboxes. */
  lemma ApplyKeeps(w: World, p: Pools, ev: Event)
    requires Inv(w, p) && Enabled(w, ev)
    ensures Inv(Apply(w, p, ev), p) && Spares(w.c, Apply(w, p, ev).c, ev)
  {
    hide Inv, SpawnStep, StageStep, UnstageStep, AdvanceOp, RemoveRuleStep, RestartStep, Serving, Fresh, CanAdvance,
      CanStage, CanUnstage, CanSettle, AllSame, AllSameButDisks, OthersSame, FanStep;
    AllSameAsItself(w.c);
    match ev
    case Fanout(fan, snapId) => FanoutKeeps(w, p, fan, snapId);
    case StageBaked(fan, out) => StageKeeps(w, p, fan, out);
    case SpawnClone(fan, id, e) => SpawnKeeps(w, p, fan, id, e);
    case UnstageBaked(fan, out) => UnstageKeeps(w, p, fan, out);
    case Settle(fan) => SettleKeeps(w, p, fan);
    case FinishFanout(fan) => FinishKeeps(w, p, fan);
    case Advance(id, out) => AdvanceKeeps(w, p, id, w.ops[id], out);
    case RemoveRule(id, r, out) => RemoveRuleKeeps(w, p, id, w.ops[id], r, out);
    case ThawTick(id, poll) => ThawKeeps(w, p, id, poll);
    case GuestExit(id) => ExitKeeps(w, p, id);
    case Crash(listed) => RestartKeeps(w, p, listed);
    case _ => RequestKeeps(w, p, ev);
  }

  /** The sandbox that an event is about: it acts for it, or it is its guest's own. */
  function Subject(ev: Event): Option<Id> {
    match ev
    case ThawTick(id, _) => Some(id)
    case GuestExit(id) => Some(id)
    case _ => Actor(ev)
  }

  function RowCommand(r: Result<Sandbox, Error>): Command {
    if r.Ok? then InsertsRow(r.value, false) else Idles
  }

  /** The command that an event about a sandbox runs for it. */
  function CommandAt(w: World, p: Pools, ev: Event): Command {
    match ev
    case RestoreSandbox(id, snapId, e) =>
      if snapId in w.c.t.snapshots && snapId in w.images
      then RowCommand(History.Restored(w.c.t, p, id, w.c.t.snapshots[snapId], e))
      else Idles
    case SpawnClone(fan, id, e) => if fan in w.fans then RowCommand(Create(w.c.t, p, id, RootfsPath(id), e)) else Idles
    case SetTimeout(_, e) => SetsDeadline(e)
    case Advance(id, out) => if id in w.ops then CommandOf(w.c, p, id, w.ops[id], out) else Idles
    case RemoveRule(_, r, out) => DropsRule(r, out.Done?)
    case _ => Idles
  }

  /** Every event about a sandbox is a step for it. */
  lemma EventIsStep(w: World, p: Pools, ev: Event, id: Id)
    requires Enabled(w, ev) && Subject(ev) == Some(id)
    ensures StepFor(w, Apply(w, p, ev), id, CommandAt(w, p, ev))
  {
    hide Enabled, StepFor, Run, CommandOf, NextOf, Moved, RemoveRuleStep, RestoreStep, SpawnStep, ThawStep, ExitStep;
    if ev.Advance? {
      OpWorks(w, ev);
      MovedOnly(w, id, w.ops[id], ev.out, CommandAt(w, p, ev), NextOf(w.c, p, id, w.ops[id], ev.out));
    } else if ev.RemoveRule? {
      OpWorks(w, ev);
      RemovalIsStep(w, id, w.ops[id], ev.rule, ev.out);
    } else {
      RequestIsStep(w, p, ev, id);
    }
  }

  lemma RemovalIsStep(w: World, id: Id, op: Op, r: Rule, out: Outcome)
    ensures StepFor(w, RemoveRuleStep(w, id, op, r, out), id, DropsRule(r, out.Done?))
  {
    hide Run, StepFor, LessTodo;
    EntriesOnly(w, RemoveRuleStep(w, id, op, r, out), id, DropsRule(r, out.Done?));
  }

  lemma RequestIsStep(w: World, p: Pools, ev: Event, id: Id)
    requires Enabled(w, ev) && Subject(ev) == Some(id) && !ev.Advance? && !ev.RemoveRule?
    ensures StepFor(w, Apply(w, p, ev), id, CommandAt(w, p, ev))
  {
    hide Enabled, StepFor, Run, CommandOf, AdvanceOp, RemoveRuleStep, RestoreStep, SpawnStep, Create, History.Restored,
      RootfsPath, RestartStep, StageStep, UnstageStep, SnapshotStep, Thaw;
    IdleRun(w.c, id);
    if ev.RestoreSandbox? || ev.SpawnClone? {
      RowIsStep(w, p, ev, id);
    } else {
      EntriesOnly(w, Apply(w, p, ev), id, CommandAt(w, p, ev));
    }
  }

  lemma RowIsStep(w: World, p: Pools, ev: Event, id: Id)
    requires Enabled(w, ev) && Subject(ev) == Some(id) && (ev.RestoreSandbox? || ev.SpawnClone?)
    ensures StepFor(w, Apply(w, p, ev), id, CommandAt(w, p, ev))
  {
    hide Enabled, StepFor, Run, CommandOf, AdvanceOp, RemoveRuleStep, Create, History.Restored, RootfsPath,
      RestartStep, StageStep, UnstageStep, SnapshotStep, ThawStep;
    IdleRun(w.c, id);
    EntriesOnly(w, Apply(w, p, ev), id, CommandAt(w, p, ev));
  }

  lemma OpWorks(w: World, ev: Event)
    requires Enabled(w, ev) && (ev.Advance? || ev.RemoveRule?)
    ensures ev.id in w.ops
    ensures ev.Advance? ==> CanAdvance(w, ev.id, w.ops[ev.id], ev.out)
    ensures ev.RemoveRule? ==> CanRemove(w.ops[ev.id].pc, ev.rule)
  {
    hide CanAdvance, CanRemove;
  }

  /** A command that can end that way is an event, and does what its kind of operation does. */
  lemma Advances(w: World, p: Pools, id: Id, op: Op, out: Outcome)
    requires Works(w, id, op) && CanAdvance(w, id, op, out)
    ensures Enabled(w, Advance(id, out))
    ensures var v := Apply(w, p, Advance(id, out));
            && v == AdvanceOp(w, p, id, op, out)
            && (Rowless(op.pc) ==> v == ColdStep(w, p, id, op, out)) && (GoesUp(op.pc) ==> v == UpStep(w, id, op, out))
            && (GoesDown(op.pc) ==> v == DownStep(w, id, op, out))
            && (Exposing(op.pc) || op.pc.Allocate? ==> v == ExposeStep(w, p, id, op, out))
  {
    hide CanAdvance, Moved, ColdCommand, ColdNext, UpCommand, UpNext, DownCommand, DownNext, ExposeCommand, ExposeNext,
      Registered, Allotted, Primary, AllRules;
  }

  /** Any other event but a crash leaves sandboxes, operations, machines, guests and processes alone. */
  ghost predicate Aside(w: World, v: World) {
    && v == w.(c := v.c, fans := v.fans, images := v.images)
    && v.c.t.sandboxes == w.c.t.sandboxes && v.c.t.ports == w.c.t.ports && v.c.stray.taps == w.c.stray.taps
  }

  lemma EventIsAside(w: World, p: Pools, ev: Event)
    requires Enabled(w, ev) && Subject(ev) == None && !ev.Crash?
    ensures Aside(w, Apply(w, p, ev))
  {
    hide Enabled, StageStep, UnstageStep, AdvanceOp, RemoveRuleStep, ThawStep, RestoreStep, SpawnStep, RestartStep, Run;
    if ev.StageBaked? || ev.UnstageBaked? {
      StagingIsAside(w, ev.fan, ev.out);
    }
  }

  lemma StagingIsAside(w: World, fan: Id, out: Outcome)
    ensures Aside(w, StageStep(w, fan, out)) && Aside(w, UnstageStep(w, fan, out))
  {
    hide LayLoose, Litter, DropLoose;
    LooseTables(w.c, BakedPath(w, fan), out.Done?);
  }

  lemma LooseTables(c: Core, path: string, done: bool)
    ensures LayLoose(c, path).t == Litter(c, path).t == DropLoose(c, path, done).t == c.t
    ensures LayLoose(c, path).stray.taps == Litter(c, path).stray.taps == DropLoose(c, path, done).stray.taps == c.stray.taps
  {
  }

  // --- runs ---

  /** Every command of the run succeeds, and no crash interrupts it. */
  predicate Succeeds(ev: Event) {
    match ev
    case Advance(_, out) => out.Done?
    case RemoveRule(_, _, out) => out.Done?
    case StageBaked(_, out) => out.Done?
    case UnstageBaked(_, out) => out.Done?
    case _ => !ev.Crash?
  }

  predicate AllSucceed(es: seq<Event>) {
    forall e | e in es :: Succeeds(e)
  }

  ghost predicate EnabledRun(w: World, p: Pools, es: seq<Event>)
    decreases |es|
  {
    es == [] || (Enabled(w, es[0]) && EnabledRun(Apply(w, p, es[0]), p, es[1..]))
  }

  ghost function Exec(w: World, p: Pools, es: seq<Event>): World
    decreases |es|
  {
    if es == [] then w else Exec(Apply(w, p, es[0]), p, es[1..])
  }

  lemma {:induction false} RunKeeps(w: World, p: Pools, es: seq<Event>)
    requires Inv(w, p) && EnabledRun(w, p, es)
    ensures Inv(Exec(w, p, es), p)
    decreases |es|
  {
    hide Inv, Enabled, Apply;
    if es != [] {
      ApplyKeeps(w, p, es[0]);
      RunKeeps(Apply(w, p, es[0]), p, es[1..]);
    }
  }

  lemma RunCons(w: World, p: Pools, e: Event, es: seq<Event>)
    requires Enabled(w, e) && EnabledRun(Apply(w, p, e), p, es)
    ensures EnabledRun(w, p, [e] + es) && Exec(w, p, [e] + es) == Exec(Apply(w, p, e), p, es)
  {
    hide Enabled, Apply;
    assert ([e] + es)[1..] == es;
  }

  lemma RunOne(w: World, p: Pools, e: Event)
    requires Enabled(w, e)
    ensures EnabledRun(w, p, [e]) && Exec(w, p, [e]) == Apply(w, p, e)
  {
    hide Enabled, Apply;
  }

  lemma {:induction false} RunAppend(w: World, p: Pools, es: seq<Event>, fs: seq<Event>)
    requires EnabledRun(w, p, es) && EnabledRun(Exec(w, p, es), p, fs)
    ensures EnabledRun(w, p, es + fs) && Exec(w, p, es + fs) == Exec(Exec(w, p, es), p, fs)
    decreases |es|
  {
    hide Enabled, Apply;
    if es == [] {
      assert es + fs == fs;
    } else {
      RunAppend(Apply(w, p, es[0]), p, es[1..], fs);
      assert (es + fs)[1..] == es[1..] + fs;
    }
  }

  /** Every state that a run can reach from an empty server satisfies the invariant. */
  lemma ReachableInv(p: Pools, es: seq<Event>)
    requires EnabledRun(INIT, p, es)
    ensures Inv(Exec(INIT, p, es), p)
  {
    InitInv(p);
    RunKeeps(INIT, p, es);
  }

  // --- what can happen at any time ---

  /** Whatever else is under way, the timeout of a sandbox can be changed, and a snapshot taken of one that is driven and no
      clone, as long as nothing works on it. */
  lemma RequestsBegin(w: World, id: Id, e: Option<int>, snapId: Id, frozenPath: string)
    requires id in w.c.t.sandboxes && id !in w.ops
    ensures Enabled(w, SetTimeout(id, e))
    ensures id in w.machines && w.machines[id].SdkMachine? && id in w.guests && snapId !in w.c.t.snapshots ==>
              Enabled(w, TakeSnapshot(id, snapId, frozenPath))
    ensures Enabled(w, DeleteSnapshot(snapId))
  {
  }

  /** A guest exits and its agent polls, in whatever way, the server crashes, and a staging ends as it may, whenever they
      will; and a reconciliation may fail to read the ports of a row. */
  lemma SurroundingsAreFree(w: World, id: Id, poll: Poll, fan: Id, out: Outcome, listed: bool)
    ensures id in w.guests || id in w.leftover ==> Enabled(w, GuestExit(id)) && Enabled(w, ThawTick(id, poll))
    ensures Enabled(w, Crash(listed))
    ensures CanStage(w, fan) ==> Enabled(w, StageBaked(fan, out))
    ensures CanUnstage(w, fan) ==> Enabled(w, UnstageBaked(fan, out))
    ensures id in w.ops && id in w.c.t.sandboxes && w.ops[id] == Op(Recovery, Lookup) ==> Enabled(w, Advance(id, Half))
  {
    hide CanStage, CanUnstage;
  }

  // --- non-interference ---

  /** Staging a disk where there is no file, and unlinking it again: a row that names the path, without having its disk
      there, is concerned. */
  predicate TouchesDisk(w: World, ev: Event, j: Id) {
    var path := RowOf(w.c, j).rootfsPath;
    match ev
    case StageBaked(fan, out) => fan in w.fans && path == BakedPath(w, fan) && !out.Failed? && path !in w.c.host.files
    case UnstageBaked(fan, out) =>
      fan in w.fans && path == BakedPath(w, fan) && w.fans[fan].staged && out.Done? && path in w.c.host.files
    case _ => false
  }

  lemma StagingTouches(w: World, fan: Id, out: Outcome, j: Id)
    requires j in w.c.t.sandboxes
    ensures SameFor(w.c, StageStep(w, fan, out).c, j) <==> !TouchesDisk(w, StageBaked(fan, out), j)
    ensures SameFor(w.c, UnstageStep(w, fan, out).c, j) <==> !TouchesDisk(w, UnstageBaked(fan, out), j)
  {
    hide SameFor, LayLoose, Litter, DropLoose;
    var path := BakedPath(w, fan);
    SameForItself(w.c, j);
    UnlinkingTouches(w.c, path, out.Done?, j);
    if path !in w.c.host.files {
      LayingTouches(w.c, path, j);
    }
  }

  /** No event touches the rows, tap or rules of a sandbox other than the one it acts for; nor its disk, with exactly
      one exception. */
  lemma NonInterference(w: World, p: Pools, ev: Event, j: Id)
    requires Inv(w, p) && Enabled(w, ev) && j in w.c.t.sandboxes && Actor(ev) != Some(j)
    ensures SameFor(w.c, Apply(w, p, ev).c, j) <==> !TouchesDisk(w, ev, j)
    ensures SameButDisk(w.c, Apply(w, p, ev).c, j)
  {
    hide Inv, Enabled, SameButDisk, TouchesDisk, StageStep, UnstageStep, AdvanceOp, RemoveRuleStep, RestartStep,
      RestoreStep, SpawnStep, SnapshotStep;
    ApplyKeeps(w, p, ev);
    match ev
    case StageBaked(fan, out) =>
      StagingTouches(w, fan, out, j);
    case UnstageBaked(fan, out) =>
      StagingTouches(w, fan, out, j);
    case _ =>
      NothingElseTouches(w, ev, j);
      hide Apply;
  }

  lemma NothingElseTouches(w: World, ev: Event, j: Id)
    requires !ev.StageBaked? && !ev.UnstageBaked?
    ensures !TouchesDisk(w, ev, j)
  {
  }

  /** The exception does not concern a sandbox that has its disk. */
  lemma DisksAreSafe(w: World, p: Pools, ev: Event, j: Id)
    requires Inv(w, p) && j in w.c.led.files
    ensures j in w.c.t.sandboxes && !TouchesDisk(w, ev, j)
  {
    hide LocalInv, ImagesInv, LooseInv, DisksInv, BrokenInv, BookInv, TapsBalance, RulesBalance, Late, Reidentified;
    if ev.UnstageBaked? {
      assert FanInv(w, ev.fan);
    }
  }

  lemma SameButDiskTransitive(c: Core, d: Core, e: Core, j: Id)
    requires SameButDisk(c, d, j) && SameButDisk(d, e, j)
    ensures SameButDisk(c, e, j)
  {
    assert forall r :: Owns(c.t, j, r) <==> Owns(d.t, j, r);
  }

  lemma SameForItself(c: Core, j: Id)
    requires j in c.t.sandboxes
    ensures SameFor(c, c, j)
  {
  }

  /** However many operations on other sandboxes run, fail, roll back and interleave in between, and even across a
      crash: what belongs to sandbox j is afterwards what it was; its disk too, if it has one. */
  lemma {:induction false} NonInterferenceRun(w: World, p: Pools, es: seq<Event>, j: Id)
    requires Inv(w, p) && EnabledRun(w, p, es) && j in w.c.t.sandboxes
    requires forall e | e in es :: Actor(e) != Some(j)
    ensures SameButDisk(w.c, Exec(w, p, es).c, j)
    ensures j in w.c.led.files ==> SameFor(w.c, Exec(w, p, es).c, j)
    decreases |es|
  {
    SameForItself(w.c, j);
    if es != [] {
      var v := Apply(w, p, es[0]);
      NonInterference(w, p, es[0], j);
      ApplyKeeps(w, p, es[0]);
      if j in w.c.led.files {
        DisksAreSafe(w, p, es[0], j);
      }
      assert j in v.c.t.sandboxes && (j in w.c.led.files <==> j in v.c.led.files) && v.c.t.sandboxes[j] == w.c.t.sandboxes[j];
      hide Inv, Enabled, Apply, SameButDisk;
      NonInterferenceRun(v, p, es[1..], j);
      SameButDiskTransitive(w.c, v.c, Exec(v, p, es[1..]).c, j);
    }
  }
}
