/** Where the contents of the registry come from: every deadline and every snapshot is that of the last request for it,
    whatever happened in between. */
module Provenance {
  import opened Wrappers
  import opened Pools
  import opened Tables
  import opened History
  import opened Hosts
  import opened Ledger
  import opened Commands
  import opened Lifecycle
  import opened Steps
  import opened Runs
  import opened Processes

  // --- deadlines ---

  /** The event asks for a deadline of the sandbox, or for none. */
  predicate Asks(ev: Event, id: Id) {
    (ev.CreateSandbox? || ev.RestoreSandbox? || ev.SpawnClone? || ev.SetTimeout?) && ev.id == id
  }

  /** The row, or the create that is about to insert it, has the deadline that was asked for. */
  predicate Carries(w: World, id: Id, asked: Option<Option<int>>) {
    && (id in w.c.t.sandboxes ==> asked == Some(w.c.t.sandboxes[id].expiresAt))
    && (id in w.ops && (w.ops[id].pc.Prepare? || w.ops[id].pc.Alloc?) ==> asked == Some(w.ops[id].pc.expiresAt))
  }

  /** The deadline that was asked for last, after one more event. */
  function AskedBy(ev: Event, id: Id, asked: Option<Option<int>>): Option<Option<int>> {
    if Asks(ev, id) then Some(ev.expiresAt) else asked
  }

  /** Only two commands set a deadline. */
  lemma RunDeadline(c: Core, id: Id, cmd: Command)
    ensures var d := Run(c, id, cmd);
            id in d.t.sandboxes ==>
              if cmd.InsertsRow? then d.t.sandboxes[id].expiresAt == cmd.row.expiresAt
              else id in c.t.sandboxes
                   && d.t.sandboxes[id].expiresAt == if cmd.SetsDeadline? then cmd.expiresAt else c.t.sandboxes[id].expiresAt
  {
    hide RootfsPath, Owns, WithTap, WithoutTap, WithFile, WithoutFile, WithRule, WithoutRule, RulesHeld;
  }

  lemma CommandDeadline(c: Core, p: Pools, id: Id, op: Op, out: Outcome)
    ensures var cmd := CommandOf(c, p, id, op, out);
            !cmd.SetsDeadline? && (cmd.InsertsRow? ==> op.pc.Alloc? && cmd.row.expiresAt == op.pc.expiresAt)
    ensures var next := NextOf(c, p, id, op, out);
            next.GoOn? && (next.pc.Prepare? || next.pc.Alloc?) ==>
              (op.pc.Prepare? || op.pc.Alloc?) && next.pc.expiresAt == op.pc.expiresAt
  {
    hide Create, AddPort, Primary, AllRules, PreRule, OutRule, ExtraRule, TapHeld, AddressHeld, LeastFreePort;
    if op.pc.Alloc? {
      var _, _ := CreatedIsLeast(c.t, p, id, RootfsPath(id), op.pc.expiresAt);
    }
  }

  lemma AdvanceCarries(w: World, p: Pools, id: Id, out: Outcome, asked: Option<Option<int>>)
    requires Carries(w, id, asked) && Enabled(w, Advance(id, out))
    ensures Carries(Apply(w, p, Advance(id, out)), id, asked)
  {
    OpWorks(w, Advance(id, out));
    hide Enabled, Run, CommandOf, NextOf, CanAdvance;
    var op := w.ops[id];
    RunDeadline(w.c, id, CommandOf(w.c, p, id, op, out));
    CommandDeadline(w.c, p, id, op, out);
  }

  lemma RequestCarries(w: World, p: Pools, ev: Event, id: Id, asked: Option<Option<int>>)
    requires Carries(w, id, asked) && Enabled(w, ev) && Actor(ev) == Some(id) && !ev.Advance?
    ensures Carries(Apply(w, p, ev), id, AskedBy(ev, id, asked))
  {
    hide Run, RestoreStep, SpawnStep, AdvanceOp, RestartStep, StageStep, UnstageStep, SnapshotStep, ThawStep, ExitStep,
      Serving, CanAdvance, FreshDisk;
    match ev
    case RestoreSandbox(_, snapId, e) => RestoreCarries(w, p, id, snapId, e);
    case SpawnClone(fan, _, e) => SpawnCarries(w, p, fan, id, e);
    case _ => RunDeadline(w.c, id, CommandAt(w, p, ev));
  }

  lemma RowCarries(w: World, id: Id, r: Result<Sandbox, Error>, op: Op, e: Option<int>)
    requires id !in w.ops && id !in w.c.t.sandboxes && (r.Ok? ==> r.value.expiresAt == e) && op.pc.Copy?
    ensures Carries(RowStep(w, id, r, op), id, Some(e))
  {
    if r.Ok? {
      RunDeadline(w.c, id, InsertsRow(r.value, false));
    }
    hide Run;
  }

  lemma RestoreCarries(w: World, p: Pools, id: Id, snapId: Id, e: Option<int>)
    requires id !in w.ops && id !in w.c.t.sandboxes && snapId in w.c.t.snapshots && snapId in w.images
    ensures Carries(RestoreStep(w, p, id, snapId, e), id, Some(e))
  {
    hide RowStep, Carries, CreateRestore, TapHeld, AddressHeld, LeastFreePort, PortsExhausted;
    var s := w.c.t.snapshots[snapId];
    RestoredIsLeast(w.c.t, p, id, s.bakedPath, s.tap, s.ip, e);
    RowCarries(w, id, History.Restored(w.c.t, p, id, s, e), Op(Restored(w.images[snapId]), Copy), e);
  }

  lemma SpawnCarries(w: World, p: Pools, fan: Id, id: Id, e: Option<int>)
    requires id !in w.ops && id !in w.c.t.sandboxes && fan in w.fans
    ensures Carries(SpawnStep(w, p, fan, id, e), id, Some(e))
  {
    hide RowStep, Carries, Create, RootfsPath, TapHeld, AddressHeld, LeastFreePort;
    var _, _ := CreatedIsLeast(w.c.t, p, id, RootfsPath(id), e);
    RowCarries(w, id, Create(w.c.t, p, id, RootfsPath(id), e), Op(Clone(fan, w.fans[fan].image), Copy), e);
  }

  lemma CrashCarries(w: World, p: Pools, listed: bool, id: Id, asked: Option<Option<int>>)
    requires Carries(w, id, asked)
    ensures Carries(Apply(w, p, Crash(listed)), id, asked)
  {
    hide AdvanceOp, RestoreStep, SpawnStep, StageStep, UnstageStep, SnapshotStep, RemoveRuleStep, Thaw, Run;
  }

  lemma EventCarries(w: World, p: Pools, ev: Event, id: Id, asked: Option<Option<int>>)
    requires Carries(w, id, asked) && Enabled(w, ev)
    ensures Carries(Apply(w, p, ev), id, AskedBy(ev, id, asked))
  {
    hide Enabled, Apply;
    if ev.Crash? {
      CrashCarries(w, p, ev.listed, id, asked);
    } else if Actor(ev) == Some(id) {
      if ev.Advance? {
        AdvanceCarries(w, p, id, ev.out, asked);
      } else {
        RequestCarries(w, p, ev, id, asked);
      }
    } else if Subject(ev) != Some(id) {
      EventUntouched(w, p, ev, id);
    } else {
      GuestCarries(w, p, ev, id, asked);
    }
  }

  lemma GuestCarries(w: World, p: Pools, ev: Event, id: Id, asked: Option<Option<int>>)
    requires Carries(w, id, asked) && (ev.ThawTick? || ev.GuestExit?)
    ensures Carries(Apply(w, p, ev), id, asked)
  {
    hide Enabled, Thaw;
  }

  /** The deadline that a run asks for last. */
  function LastAsked(es: seq<Event>, id: Id, asked: Option<Option<int>>): Option<Option<int>>
    decreases |es|
  {
    if es == [] then asked else LastAsked(es[1..], id, AskedBy(es[0], id, asked))
  }

  lemma {:induction false} RunCarries(w: World, p: Pools, es: seq<Event>, id: Id, asked: Option<Option<int>>)
    requires Carries(w, id, asked) && EnabledRun(w, p, es)
    ensures Carries(Exec(w, p, es), id, LastAsked(es, id, asked))
    decreases |es|
  {
    hide Enabled, Apply, Carries;
    if es != [] {
      EventCarries(w, p, es[0], id, asked);
      RunCarries(Apply(w, p, es[0]), p, es[1..], id, AskedBy(es[0], id, asked));
    }
  }

  /** The deadline of a row is the one that was asked for last, by its start or by a change of its timeout. */
  lemma DeadlineIsLastAsked(p: Pools, es: seq<Event>, id: Id)
    requires EnabledRun(INIT, p, es) && id in Exec(INIT, p, es).c.t.sandboxes
    ensures LastAsked(es, id, None) == Some(RowOf(Exec(INIT, p, es).c, id).expiresAt)
  {
    hide EnabledRun, Exec, LastAsked;
    RunCarries(INIT, p, es, id, None);
  }

  // --- snapshots ---

  predicate Concerns(ev: Event, snapId: Id) {
    (ev.TakeSnapshot? || ev.DeleteSnapshot?) && ev.snapId == snapId
  }

  /** What is known of a snapshot: its row, and its memory image. */
  function Kept(w: World, snapId: Id): (Option<Snapshot>, Option<Memory>) {
    (if snapId in w.c.t.snapshots then Some(w.c.t.snapshots[snapId]) else None,
     if snapId in w.images then Some(w.images[snapId]) else None)
  }

  lemma KeptByOthers(w: World, p: Pools, ev: Event, snapId: Id)
    requires Enabled(w, ev) && !Concerns(ev, snapId)
    ensures Kept(Apply(w, p, ev), snapId) == Kept(w, snapId)
  {
    hide Enabled, Run, StageStep, UnstageStep, AdvanceOp, RestoreStep, SpawnStep, RemoveRuleStep, Thaw, Small,
      RestartStep;
    if Subject(ev).Some? {
      hide Apply, Kept;
      EventIsStep(w, p, ev, Subject(ev).value);
      StepKeeps(w, Apply(w, p, ev), Subject(ev).value, CommandAt(w, p, ev), snapId);
    } else if ev.StageBaked? || ev.UnstageBaked? {
      StagingKeeps(w, ev.fan, ev.out);
    } else if ev.Crash? {
      RestartKeepsSnapshots(w, ev.listed, snapId);
    }
  }

  lemma StepKeeps(w: World, v: World, id: Id, cmd: Command, snapId: Id)
    requires StepFor(w, v, id, cmd)
    ensures Kept(v, snapId) == Kept(w, snapId)
  {
    hide Run, Small;
  }

  lemma RestartKeepsSnapshots(w: World, listed: bool, snapId: Id)
    ensures Kept(RestartStep(w, listed), snapId) == Kept(w, snapId)
  {
  }

  lemma StagingKeeps(w: World, fan: Id, out: Outcome)
    ensures StageStep(w, fan, out).images == UnstageStep(w, fan, out).images == w.images
    ensures StageStep(w, fan, out).c.t == UnstageStep(w, fan, out).c.t == w.c.t
  {
    hide LayLoose, Litter, DropLoose;
    LooseTables(w.c, BakedPath(w, fan), out.Done?);
  }

  /** A snapshot names the disk, tap and address that its source has, and holds what the guest remembers. */
  ghost predicate TakenFrom(w: World, v: World, ev: Event) {
    && ev.TakeSnapshot? && ev.id in w.c.t.sandboxes && ev.id in w.guests
    && var row := w.c.t.sandboxes[ev.id];
    Kept(v, ev.snapId) == (Some(Snapshot(ev.id, row.tap, row.ip, ev.frozenPath, row.rootfsPath)), Some(w.guests[ev.id].memory))
  }

  lemma TakesOrDeletes(w: World, p: Pools, ev: Event, snapId: Id)
    requires Enabled(w, ev) && Concerns(ev, snapId)
    ensures ev.TakeSnapshot? ==> TakenFrom(w, Apply(w, p, ev), ev)
    ensures ev.DeleteSnapshot? ==> Kept(Apply(w, p, ev), snapId).0 == None
  {
    hide AdvanceOp, RestoreStep, SpawnStep, RemoveRuleStep, Thaw, Run, StageStep, UnstageStep, RestartStep;
  }

  lemma {:induction false} RunKeepsSnapshot(w: World, p: Pools, es: seq<Event>, snapId: Id) returns (k: int)
    requires EnabledRun(w, p, es)
    ensures -1 <= k < |es| && (k >= 0 ==> Concerns(es[k], snapId))
    ensures forall j | k < j < |es| :: !Concerns(es[j], snapId)
    ensures k == -1 ==> Kept(Exec(w, p, es), snapId) == Kept(w, snapId)
    ensures k >= 0 && es[k].TakeSnapshot? ==> TakenFrom(Exec(w, p, es[..k]), Exec(w, p, es), es[k])
    ensures k >= 0 && es[k].DeleteSnapshot? ==> Kept(Exec(w, p, es), snapId).0 == None
    decreases |es|
  {
    hide Enabled, Apply, Kept;
    k := -1;
    if es != [] {
      var v := Apply(w, p, es[0]);
      k := RunKeepsSnapshot(v, p, es[1..], snapId);
      if k >= 0 {
        k := k + 1;
        assert es[..k][1..] == es[1..][..k - 1];
      } else if Concerns(es[0], snapId) {
        k := 0;
        TakesOrDeletes(w, p, es[0], snapId);
      } else {
        KeptByOthers(w, p, es[0], snapId);
      }
    }
  }

  /** A snapshot is there if and only if the last request that concerns it took it; and then it is what that request
      found, whatever has become of its source. */
  lemma SnapshotIsLastTaken(p: Pools, es: seq<Event>, snapId: Id) returns (k: int)
    requires EnabledRun(INIT, p, es)
    ensures -1 <= k < |es| && (k >= 0 ==> Concerns(es[k], snapId))
    ensures forall j | k < j < |es| :: !Concerns(es[j], snapId)
    ensures snapId in Exec(INIT, p, es).c.t.snapshots <==> k >= 0 && es[k].TakeSnapshot?
    ensures k >= 0 && es[k].TakeSnapshot? ==> TakenFrom(Exec(INIT, p, es[..k]), Exec(INIT, p, es), es[k])
  {
    hide EnabledRun, Exec;
    k := RunKeepsSnapshot(INIT, p, es, snapId);
  }
}
