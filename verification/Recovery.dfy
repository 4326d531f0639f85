/** A crash at any point of any run, and the reconciliation that follows it (internal/server/reconcile.go). */
module Recovery {
  import opened Wrappers
  import opened Pools
  import opened Tables
  import opened History
  import opened Hosts
  import opened Ledger
  import opened Commands
  import opened Lifecycle
  import opened Safety
  import opened Reachable
  import opened Events
  import opened Runs
  import opened Processes
  import opened Guarantees

  /** A command of the reconciliation that succeeds. */
  predicate Recovers(ev: Event) {
    (ev.Advance? && ev.out.Done?) || (ev.RemoveRule? && ev.out.Done?)
  }

  /** Nothing is left to reconcile. */
  ghost predicate Settled(w: World) {
    forall ev | Recovers(ev) :: !Enabled(w, ev)
  }

  /** Every row is being taken down, and with its ports read. */
  ghost predicate Recovering(w: World) {
    && w.fans == map[] && w.ops.Keys == w.c.t.sandboxes.Keys
    && forall id | id in w.ops :: w.ops[id].kind.Recovery? && TakenDown(w.ops[id].pc)
  }

  /** The steps of a take-down. */
  predicate Falling(pc: Pc) {
    pc.Lookup? || pc.Shutdown? || pc.DropRules? || pc.DestroyTap? || pc.DestroyDisk? || pc.DestroyRow?
  }

  /** Its ports have been read, or will be. */
  predicate PortsRead(pc: Pc) {
    match pc
    case Shutdown(_, full) => full
    case DropRules(_, full) => full
    case DestroyTap(full) => full
    case DestroyDisk(full) => full
    case DestroyRow(full) => full
    case _ => true
  }

  predicate TakenDown(pc: Pc) {
    Falling(pc) && PortsRead(pc)
  }

  // --- one command of the reconciliation ---

  /** How many commands a sandbox still needs, in a take-down or in the roll-back of a start. */
  function RankOf(c: Core, id: Id, op: Op): nat {
    match op.pc
    case Undo(todo) => |todo| + if op.kind.Clone? then |AllRules(c, id)| + 8 else 5
    case Halt => if op.kind.Clone? then |AllRules(c, id)| + 7 else 4
    case RollTap => 3
    case RollDisk => 2
    case RollRow => 1
    case Lookup => |AllRules(c, id)| + 6
    case Shutdown(todo, _) => |todo| + 5
    case DropRules(todo, _) => |todo| + 4
    case DestroyTap(_) => 3
    case DestroyDisk(_) => 2
    case DestroyRow(_) => 1
    case _ => 0
  }

  function Rank(w: World, id: Id): nat {
    if id in w.ops && id in w.c.t.sandboxes then RankOf(w.c, id, w.ops[id]) else 0
  }

  /** Where each step leads. */
  predicate NextPc(op: Op, next: Pc) {
    match op.pc
    case Undo(_) => next.Undo? || next.Halt?
    case Halt => if op.kind.Clone? then next.Lookup? else next.RollTap?
    case RollTap => next.RollDisk?
    case RollDisk => next.RollRow?
    case Lookup => next.Shutdown?
    case Shutdown(_, _) => next.DropRules?
    case DropRules(_, _) => next.DropRules? || next.DestroyTap?
    case DestroyTap(_) => next.DestroyDisk?
    case DestroyDisk(_) => next.DestroyRow?
    case _ => false
  }

  /** The sandbox comes one command closer to its end, or its row goes. */
  ghost predicate OneDown(w: World, v: World, id: Id, op: Op) {
    && v.fans == w.fans && v.images == w.images && v.c.seen == w.c.seen && v.c.loose == w.c.loose
    && if RowGoes(op.pc) then v.ops == w.ops - {id} && v.c.t == WithoutSandbox(w.c.t, id)
       else
         && v.c.t == w.c.t && id in v.ops && v.ops == w.ops[id := v.ops[id]] && v.ops[id].kind == op.kind
         && NextPc(op, v.ops[id].pc) && (PortsRead(v.ops[id].pc) <==> PortsRead(op.pc))
         && RankOf(w.c, id, v.ops[id]) + 1 == RankOf(w.c, id, op)
         && (!op.pc.Lookup? ==> TodoOf(v.ops[id].pc) <= TodoOf(op.pc))
  }

  predicate DropsTapNow(pc: Pc) {
    pc.RollTap? || pc.DestroyTap?
  }

  predicate DropsDiskNow(pc: Pc) {
    pc.RollDisk? || pc.DestroyDisk?
  }

  /** The tap, or the disk, or neither is removed, and no rule but one that is to be removed. */
  ghost predicate HostStep(w: World, v: World, id: Id, pc: Pc) {
    var row := RowOf(w.c, id);
    && v.c.host.taps == (if DropsTapNow(pc) then w.c.host.taps - {row.tap} else w.c.host.taps)
    && v.c.host.files == (if DropsDiskNow(pc) then w.c.host.files - {row.rootfsPath} else w.c.host.files)
    && (!RowGoes(pc) ==> w.c.led.rules - TodoOf(pc) <= v.c.led.rules)
    && (TodoOf(pc) == {} ==> v.c.host.rules == w.c.host.rules)
  }

  /** The process that can be reached is killed, or one is forgotten, or neither. */
  ghost predicate ProcessStep(w: World, v: World, id: Id, op: Op) {
    var row := RowOf(w.c, id);
    && v.machines == (if op.pc.Shutdown? then w.machines - {id} else w.machines)
    && v.guests == (if RowGoes(op.pc) || Stops(w, id, op) then w.guests - {id} else w.guests)
    && v.leftover ==
       if RowGoes(op.pc) && id in w.guests
       then w.leftover[id := Leftover(w.guests[id], row.tap, row.tap !in w.c.host.taps)]
       else w.leftover
  }

  ghost predicate TakesDown(w: World, v: World, id: Id, op: Op) {
    OneDown(w, v, id, op) && HostStep(w, v, id, op.pc) && ProcessStep(w, v, id, op)
  }

  lemma DownTakes(w: World, id: Id, op: Op)
    requires Works(w, id, op) && id in w.c.t.sandboxes && GoesDown(op.pc) && CanAdvance(w, id, op, Done)
    ensures TakesDown(w, DownStep(w, id, op, Done), id, op)
  {
    hide OneDown, HostStep, ProcessStep, DownStep, CanAdvance;
    DownIsOneDown(w, id, op);
    DownHost(w, id, op);
    DownProcess(w, id, op);
  }

  lemma DownIsOneDown(w: World, id: Id, op: Op)
    requires Works(w, id, op) && id in w.c.t.sandboxes && GoesDown(op.pc) && CanAdvance(w, id, op, Done)
    ensures OneDown(w, DownStep(w, id, op, Done), id, op)
  {
    hide Primary, AllRules, RulesHeld, WithoutSandbox, Stops, WithoutTap, WithoutFile;
  }

  lemma DownHost(w: World, id: Id, op: Op)
    requires Works(w, id, op) && id in w.c.t.sandboxes && GoesDown(op.pc)
    ensures HostStep(w, DownStep(w, id, op, Done), id, op.pc)
  {
    hide Primary, AllRules, RulesHeld, WithoutSandbox, Stops, NextOps;
  }

  lemma DownProcess(w: World, id: Id, op: Op)
    requires Works(w, id, op) && id in w.c.t.sandboxes && GoesDown(op.pc)
    ensures ProcessStep(w, DownStep(w, id, op, Done), id, op)
  {
    hide Primary, AllRules, Run, Stops, NextOps, DownCommand, DownNext;
  }

  lemma RemovalTakes(w: World, id: Id, op: Op, r: Rule)
    requires Works(w, id, op) && id in w.c.t.sandboxes && CanRemove(op.pc, r)
    ensures TakesDown(w, RemoveRuleStep(w, id, op, r, Done), id, op)
  {
    hide AllRules, HostStep, RankOf, NextPc, PortsRead, LessTodo, TodoOf, CanRemove;
    RemovalHost(w, id, op, r);
    RemovalIsLess(w.c, id, op, r);
  }

  lemma RemovalIsLess(c: Core, id: Id, op: Op, r: Rule)
    requires CanRemove(op.pc, r)
    ensures var next := op.(pc := LessTodo(op.pc, r));
            && !RowGoes(op.pc) && !op.pc.Halt? && !op.pc.Shutdown? && NextPc(op, next.pc)
            && RankOf(c, id, next) + 1 == RankOf(c, id, op)
            && (PortsRead(next.pc) <==> PortsRead(op.pc)) && TodoOf(next.pc) <= TodoOf(op.pc)
  {
    hide AllRules;
    var todo := TodoOf(op.pc);
    assert todo == (todo - {r}) + {r};
  }

  lemma RemovalHost(w: World, id: Id, op: Op, r: Rule)
    requires Works(w, id, op) && id in w.c.t.sandboxes && CanRemove(op.pc, r)
    ensures HostStep(w, RemoveRuleStep(w, id, op, r, Done), id, op.pc)
  {
    hide AllRules;
  }

  /** Each command that succeeds, of a take-down or a roll-back. */
  lemma DescentTakes(w: World, p: Pools, id: Id, op: Op, ev: Event)
    requires Works(w, id, op) && id in w.c.t.sandboxes && GoesDown(op.pc) && Recovers(ev) && Enabled(w, ev)
    requires Actor(ev) == Some(id)
    ensures TakesDown(w, Apply(w, p, ev), id, op)
  {
    hide Enabled, CanAdvance, CanRemove, TakesDown, Moved, DownCommand, DownNext, ColdCommand, ColdNext, UpCommand,
      UpNext, ExposeCommand, ExposeNext, RemoveRuleStep, Registered, Allotted, Primary, AllRules;
    OpWorks(w, ev);
    if ev.Advance? {
      DownTakes(w, id, op);
    } else {
      RemovalTakes(w, id, op, ev.rule);
    }
  }

  lemma RecoveryTakes(w: World, p: Pools, ev: Event)
    requires Recovering(w) && Recovers(ev) && Enabled(w, ev)
    ensures ev.id in w.ops && ev.id in w.c.t.sandboxes && Actor(ev) == Some(ev.id)
    ensures TakesDown(w, Apply(w, p, ev), ev.id, w.ops[ev.id])
  {
    hide Enabled, Apply, TakesDown, PortsRead;
    OpWorks(w, ev);
    DescentTakes(w, p, ev.id, w.ops[ev.id], ev);
  }

  lemma RecoveryContinues(w: World, p: Pools, ev: Event)
    requires Recovering(w) && Recovers(ev) && Enabled(w, ev)
    ensures Recovering(Apply(w, p, ev))
  {
    hide Enabled, Apply, Recovers, RankOf, PortsRead, HostStep, ProcessStep;
    RecoveryTakes(w, p, ev);
  }

  /** As long as a row that is being taken down is left some command can be taken. */
  lemma SomethingToDo(w: World, id: Id, op: Op) returns (ev: Event)
    requires Works(w, id, op) && id in w.c.t.sandboxes && GoesDown(op.pc)
    ensures Recovers(ev) && Enabled(w, ev) && Actor(ev) == Some(id) && (TodoOf(op.pc) == {} ==> ev.Advance?)
  {
    if TodoOf(op.pc) != {} && !op.pc.Shutdown? {
      var r :| r in TodoOf(op.pc);
      ev := RemoveRule(id, r, Done);
    } else {
      ev := Advance(id, Done);
    }
  }

  lemma SettledIsEmpty(w: World)
    requires Recovering(w) && Settled(w)
    ensures w.ops == map[] && w.c.t.sandboxes == map[] && w.fans == map[]
  {
    hide Enabled, Recovers, PortsRead;
    if w.ops != map[] {
      var id :| id in w.ops;
      var ev := SomethingToDo(w, id, w.ops[id]);
    }
  }

  // --- the reconciliation ends ---

  function Turns(es: seq<Event>, id: Id): nat {
    if es == [] then 0 else (if Actor(es[0]) == Some(id) then 1 else 0) + Turns(es[1..], id)
  }

  lemma RankFalls(w: World, p: Pools, ev: Event, id: Id)
    requires Recovering(w) && Recovers(ev) && Enabled(w, ev)
    ensures Rank(Apply(w, p, ev), id) + (if Actor(ev) == Some(id) then 1 else 0) == Rank(w, id)
  {
    hide Enabled, Apply, Actor, AllRules, PortsRead, NextPc, HostStep, ProcessStep;
    RecoveryTakes(w, p, ev);
    if ev.id != id || !w.ops[id].pc.DestroyRow? {
      OtherRules(w.c, Apply(w, p, ev).c, ev.id, id);
    }
  }

  lemma OtherRules(c: Core, d: Core, id: Id, j: Id)
    requires d.t == c.t || (j != id && d.t == WithoutSandbox(c.t, id))
    ensures AllRules(d, j) == AllRules(c, j)
  {
    if d.t != c.t && j in c.t.sandboxes {
      assert PortKeys(d.t, j) == PortKeys(c.t, j);
    }
  }

  // --- what the reconciliation leaves on the host ---

  /** What has been removed is gone. */
  ghost predicate Cleared(w: World) {
    forall id | id in w.ops && id in w.c.t.sandboxes ::
      && (w.ops[id].pc.DestroyDisk? || w.ops[id].pc.DestroyRow? ==> w.c.t.sandboxes[id].tap !in w.c.host.taps)
      && (w.ops[id].pc.DestroyRow? ==> w.c.t.sandboxes[id].rootfsPath !in w.c.host.files)
  }

  ghost predicate TapOfRow(t: Tables, tap: string) {
    exists id :: id in t.sandboxes && t.sandboxes[id].tap == tap
  }

  /** The taps and files that no row names. */
  ghost predicate SameUnnamed(w: World, v: World) {
    && (forall tap :: tap in v.c.host.taps && !TapOfRow(v.c.t, tap) <==> tap in w.c.host.taps && !TapOfRow(w.c.t, tap))
    && (forall f :: f in v.c.host.files && NoRowAt(v.c, f) <==> f in w.c.host.files && NoRowAt(w.c, f))
  }

  lemma RecoveryClears(w: World, p: Pools, ev: Event)
    requires Recovering(w) && Recovers(ev) && Enabled(w, ev) && Cleared(w)
    ensures Cleared(Apply(w, p, ev)) && SameUnnamed(w, Apply(w, p, ev))
  {
    hide Enabled, Apply, Recovers, PortsRead, RankOf, ProcessStep, TapOfRow, NoRowAt;
    RecoveryTakes(w, p, ev);
    if w.ops[ev.id].pc.DestroyRow? {
      LastUnnamed(w, Apply(w, p, ev), ev.id);
    } else {
      MoreUnnamed(w, Apply(w, p, ev), ev.id);
    }
  }

  lemma MoreUnnamed(w: World, v: World, id: Id)
    requires v.c.t == w.c.t && id in w.c.t.sandboxes
    requires v.c.host.taps == w.c.host.taps || v.c.host.taps == w.c.host.taps - {RowOf(w.c, id).tap}
    requires v.c.host.files == w.c.host.files || v.c.host.files == w.c.host.files - {RowOf(w.c, id).rootfsPath}
    ensures SameUnnamed(w, v)
  {
  }

  lemma LastUnnamed(w: World, v: World, id: Id)
    requires id in w.c.t.sandboxes && v.c.t == WithoutSandbox(w.c.t, id) && v.c.host.taps == w.c.host.taps
    requires v.c.host.files == w.c.host.files
    requires w.c.t.sandboxes[id].tap !in w.c.host.taps && w.c.t.sandboxes[id].rootfsPath !in w.c.host.files
    ensures SameUnnamed(w, v)
  {
    assert forall j | j != id :: j in v.c.t.sandboxes <==> j in w.c.t.sandboxes;
    assert forall j | j in v.c.t.sandboxes :: v.c.t.sandboxes[j] == w.c.t.sandboxes[j];
    forall tap | tap in w.c.host.taps ensures TapOfRow(v.c.t, tap) <==> TapOfRow(w.c.t, tap) {
      if TapOfRow(w.c.t, tap) {
        var j :| j in w.c.t.sandboxes && w.c.t.sandboxes[j].tap == tap;
        assert j in v.c.t.sandboxes;
      }
    }
    forall f | f in w.c.host.files && NoRowAt(v.c, f) ensures NoRowAt(w.c, f) {
      forall j | j in w.c.t.sandboxes ensures w.c.t.sandboxes[j].rootfsPath != f {
        assert j == id || j in v.c.t.sandboxes;
      }
    }
  }

  // --- what the reconciliation does to the guests ---

  /** The processes that the reconciliation cannot find: their rows have no process id. It deletes their taps and rows. */
  function Orphans(w: World): map<Id, Leftover> {
    map id | id in Unrecorded(w) :: Leftover(w.guests[id], w.c.t.sandboxes[id].tap, true)
  }

  /** The processes that nobody knows of, or will know of when their rows are gone. */
  function Adrift(w: World): map<Id, Leftover> {
    w.leftover + Orphans(w)
  }

  /** No machine is held, a guest that still runs is either yet to be killed or cannot be found, and no row is left of a
      process that nobody knows of. */
  ghost predicate Hunting(w: World) {
    && w.machines == map[] && (forall id | id in w.leftover :: id !in w.c.t.sandboxes)
    && forall id | id in w.guests ::
         && id in w.ops && id in w.c.t.sandboxes
         && (w.c.t.sandboxes[id].pid != 0 ==> w.ops[id].pc.Lookup? || w.ops[id].pc.Shutdown?)
  }

  lemma RecoveryHunts(w: World, p: Pools, ev: Event)
    requires Recovering(w) && Recovers(ev) && Enabled(w, ev) && Hunting(w)
    ensures Hunting(Apply(w, p, ev))
  {
    hide Enabled, Apply, Recovers, PortsRead, RankOf, HostStep, WithoutSandbox;
    RecoveryTakes(w, p, ev);
    OtherRowsStay(w.c.t, ev.id);
    RowIsGone(w.c.t, ev.id);
    assert w.machines - {ev.id} == map[];
  }

  lemma RowIsGone(t: Tables, id: Id)
    ensures id !in WithoutSandbox(t, id).sandboxes
  {
  }

  /** No step changes what is adrift. */
  lemma RecoveryDrifts(w: World, p: Pools, ev: Event)
    requires Recovering(w) && Recovers(ev) && Enabled(w, ev) && Hunting(w) && Cleared(w)
    ensures Adrift(Apply(w, p, ev)) == Adrift(w)
  {
    hide Enabled, Apply, Recovers, PortsRead, RankOf, Unrecorded, HostStep, NextPc;
    RecoveryTakes(w, p, ev);
    if w.ops[ev.id].pc.DestroyRow? {
      LastDrifts(w, Apply(w, p, ev), ev.id);
    } else {
      OtherDrifts(w, Apply(w, p, ev), ev.id);
    }
  }

  lemma LastDrifts(w: World, v: World, id: Id)
    requires id in w.c.t.sandboxes && id !in w.leftover && v.c.t == WithoutSandbox(w.c.t, id)
    requires v.guests == w.guests - {id}
    requires id in w.guests ==> RowOf(w.c, id).pid == 0
    requires v.leftover == if id in w.guests then w.leftover[id := Leftover(w.guests[id], RowOf(w.c, id).tap, true)]
                           else w.leftover
    ensures Adrift(v) == Adrift(w)
  {
    LastOrphans(w, v, id);
    hide Orphans, WithoutSandbox;
    if id in w.guests {
      assert v.leftover == w.leftover[id := Orphans(w)[id]];
      assert Adrift(v) == Adrift(w);
    } else {
      assert Orphans(w) - {id} == Orphans(w);
    }
  }

  lemma LastOrphans(w: World, v: World, id: Id)
    requires id in w.c.t.sandboxes && v.c.t == WithoutSandbox(w.c.t, id) && v.guests == w.guests - {id}
    requires id in w.guests ==> w.c.t.sandboxes[id].pid == 0
    ensures Orphans(v) == Orphans(w) - {id}
    ensures id in w.guests <==> id in Orphans(w)
    ensures id in w.guests ==> Orphans(w)[id] == Leftover(w.guests[id], w.c.t.sandboxes[id].tap, true)
  {
    assert forall j :: j in Unrecorded(v) <==> j in Unrecorded(w) && j != id;
  }

  lemma OtherDrifts(w: World, v: World, id: Id)
    requires v.c.t == w.c.t && v.leftover == w.leftover
    requires v.guests == w.guests || (v.guests == w.guests - {id} && RowOf(w.c, id).pid != 0)
    ensures Adrift(v) == Adrift(w)
  {
    assert Unrecorded(v) == Unrecorded(w);
    assert forall j | j in Unrecorded(v) :: v.guests[j] == w.guests[j];
    hide Unrecorded;
    assert Orphans(v) == Orphans(w);
  }

  // --- whole reconciliations ---

  lemma {:induction false} RecoveryRun(w: World, p: Pools, rs: seq<Event>, id: Id)
    requires Recovering(w) && EnabledRun(w, p, rs) && forall e | e in rs :: Recovers(e)
    ensures Recovering(Exec(w, p, rs))
    ensures Turns(rs, id) + Rank(Exec(w, p, rs), id) == Rank(w, id)
    decreases |rs|
  {
    hide Enabled, Apply, Recovering, Rank, Recovers;
    if rs != [] {
      RecoveryContinues(w, p, rs[0]);
      RankFalls(w, p, rs[0], id);
      RecoveryRun(Apply(w, p, rs[0]), p, rs[1..], id);
    }
  }

  lemma {:induction false} RecoveryEffect(w: World, p: Pools, rs: seq<Event>)
    requires Recovering(w) && EnabledRun(w, p, rs) && forall e | e in rs :: Recovers(e)
    requires Inv(w, p) && Cleared(w) && Hunting(w)
    ensures var u := Exec(w, p, rs);
            Inv(u, p) && Recovering(u) && SameUnnamed(w, u) && Adrift(u) == Adrift(w) && Hunting(u) && u.c.stray == w.c.stray
    decreases |rs|
  {
    hide Inv, Enabled, Apply, Recovering, Cleared, Hunting, Adrift, Recovers, Spares, TapOfRow, NoRowAt;
    if rs != [] {
      RecoveryContinues(w, p, rs[0]);
      RecoveryClears(w, p, rs[0]);
      RecoveryHunts(w, p, rs[0]);
      RecoveryDrifts(w, p, rs[0]);
      ApplyKeeps(w, p, rs[0]);
      RecoveryLeavesNoStray(w, p, rs[0]);
      RecoveryEffect(Apply(w, p, rs[0]), p, rs[1..]);
    }
  }

  /** A command that succeeds for an operation whose ports are read leaves no stray. */
  lemma SuccessLeavesNoStray(w: World, p: Pools, id: Id, op: Op, ev: Event)
    requires Inv(w, p) && Works(w, id, op) && PortsRead(op.pc) && Recovers(ev) && Enabled(w, ev)
    requires Actor(ev) == Some(id)
    ensures Apply(w, p, ev).c.stray == w.c.stray
  {
    hide Inv, Enabled, Apply, LocalInv, BrokenInv, LeftBy, OnHost, PortsRead;
    LocalOf(w, p, id);
    StraysExactly(w, p, ev);
    SucceedsWhole(w, ev, op);
  }

  lemma RecoveryLeavesNoStray(w: World, p: Pools, ev: Event)
    requires Recovering(w) && Recovers(ev) && Enabled(w, ev) && Inv(w, p)
    ensures Apply(w, p, ev).c.stray == w.c.stray
  {
    hide Inv, Enabled, Apply;
    OpWorks(w, ev);
    SuccessLeavesNoStray(w, p, ev.id, w.ops[ev.id], ev);
  }

  lemma SucceedsWhole(w: World, ev: Event, op: Op)
    requires Recovers(ev) && LocalInv(w, ev.id) && Works(w, ev.id, op) && PortsRead(op.pc)
    ensures LeftBy(w, ev) == None
  {
    hide GuestInv, MachineInv, StartInv, ExposeInv, RowlessInv, LeftByAdvance, RulesHeld;
    if RowGoes(op.pc) {
      NoneHeld(w.c, ev.id);
    }
  }

  lemma NoneHeld(c: Core, id: Id)
    requires NoRules(c, id)
    ensures RulesHeld(c, id) == {}
  {
    hide Owns;
  }

  lemma CrashStarts(w: World, p: Pools)
    requires Inv(w, p) && forall id | id in w.leftover :: id !in w.c.t.sandboxes
    ensures var v := CrashStep(w);
            Inv(v, p) && Recovering(v) && Cleared(v) && Hunting(v) && Adrift(v) == Adrift(w) && SameUnnamed(w, v)
  {
    hide Inv, LocalInv, BrokenInv, TapOfRow, NoRowAt, AllSame, Orphans;
    CrashKeeps(w, p);
    forall id | id in w.guests ensures id in w.c.t.sandboxes {
      LocalOf(w, p, id);
      GuestHasRow(w, id);
    }
    CrashRows(w);
  }

  lemma CrashRows(w: World)
    ensures forall tap :: TapOfRow(CrashStep(w).c.t, tap) <==> TapOfRow(w.c.t, tap)
    ensures forall f :: NoRowAt(CrashStep(w).c, f) <==> NoRowAt(w.c, f)
    ensures Orphans(CrashStep(w)) == Orphans(w)
  {
    assert Unrecorded(CrashStep(w)) == Unrecorded(w);
  }

  /** Crash safety. Let any run be cut off at any point and let the server reconcile, the commands for the rows it
      found interleaving at will. Each row takes exactly as many commands as its rank says, and when none is left there
      are no rows, ports or machines. Of the taps and files exactly those are left that no row named; of the rules at
      most what failed commands had already made strays. Every guest is killed but those whose process id had not
      reached their row: exactly these join the processes that nobody knows of, each off the network. */
  lemma CrashThenReconcile(p: Pools, es: seq<Event>, rs: seq<Event>)
    requires EnabledRun(INIT, p, es)
    requires EnabledRun(CrashStep(Exec(INIT, p, es)), p, rs) && forall e | e in rs :: Recovers(e)
    ensures var w := Exec(INIT, p, es);
            var u := Exec(CrashStep(w), p, rs);
            && (forall id :: Turns(rs, id) + Rank(u, id) == Rank(CrashStep(w), id))
            && (Settled(u) ==>
                  && u.c.t.sandboxes == map[] && u.c.t.ports == map[] && u.ops == map[] && u.machines == map[]
                  && u.guests == map[]
                  && u.c.host.taps.Keys == (set tap | tap in w.c.host.taps && !TapOfRow(w.c.t, tap))
                  && u.c.host.files == (set f | f in w.c.host.files && NoRowAt(w.c, f))
                  && u.c.host.taps.Keys <= w.c.stray.taps && u.c.host.rules <= w.c.stray.rules
                  && u.leftover == w.leftover + Orphans(w))
  {
    hide Inv, Enabled, Apply, Rank, Recovering, Recovers, Hunting, Cleared, TapOfRow, NoRowAt, Settled, Orphans,
      EnabledRun, Exec;
    var w := Exec(INIT, p, es);
    var v := CrashStep(w);
    var u := Exec(v, p, rs);
    ReachableInv(p, es);
    forall id ensures id in w.leftover ==> id !in w.c.t.sandboxes {
      LeftoversAreCutOff(p, es, id);
    }
    CrashStarts(w, p);
    forall id ensures Turns(rs, id) + Rank(u, id) == Rank(v, id) {
      RecoveryRun(v, p, rs, id);
    }
    RecoveryEffect(v, p, rs);
    if Settled(u) {
      SettledIsEmpty(u);
      OnlyStrays(u, p);
      NothingAdrift(u);
      UnnamedRemain(w, v, u);
    }
  }

  lemma NothingAdrift(u: World)
    requires u.guests == map[]
    ensures Adrift(u) == u.leftover
  {
    assert Unrecorded(u) == {};
  }

  lemma UnnamedRemain(w: World, v: World, u: World)
    requires SameUnnamed(w, v) && SameUnnamed(v, u) && u.c.t.sandboxes == map[]
    ensures u.c.host.taps.Keys == (set tap | tap in w.c.host.taps && !TapOfRow(w.c.t, tap))
    ensures u.c.host.files == (set f | f in w.c.host.files && NoRowAt(w.c, f))
  {
    assert forall tap :: !TapOfRow(u.c.t, tap);
    assert forall f :: NoRowAt(u.c, f);
    hide TapOfRow, NoRowAt;
  }

  // --- what is left, exactly ---

  /** A create that has prepared its disk and has no row yet. */
  predicate Preparing(w: World, id: Id) {
    id in w.ops && Rowless(w.ops[id].pc) && !w.ops[id].pc.Prepare?
  }

  /** A fan-out whose staged disk is there, at a path that no row names. */
  ghost predicate StagedAlone(w: World, fan: Id) {
    fan in w.fans && w.fans[fan].staged && BakedPath(w, fan) in w.c.host.files && NoRowAt(w.c, BakedPath(w, fan))
  }

  /** The file belongs to one of these two. */
  ghost predicate CutOff(w: World, f: string) {
    (exists id :: Preparing(w, id) && f == RootfsPath(id)) || (exists fan :: StagedAlone(w, fan) && f == BakedPath(w, fan))
  }

  lemma PreparedIsCutOff(w: World, p: Pools, id: Id)
    requires Inv(w, p) && Preparing(w, id)
    ensures RootfsPath(id) in w.c.host.files && NoRowAt(w.c, RootfsPath(id))
  {
    hide RootfsPath, CoreInv, LocalInv, FansInv, ImagesInv, LooseInv, BrokenInv, FreshDisk;
    SeenIsNotOwn(w.c, p, id);
    RowlessIsFresh(w);
  }

  lemma UnnamedIsLoose(c: Core, p: Pools)
    requires CoreInv(c, p) && c.stray.files == {} && c.stray.cut == {}
    ensures forall f | f in c.host.files && NoRowAt(c, f) :: f in c.loose
  {
    hide BookInv, TapsBalance, RulesBalance;
  }

  lemma UnnamedIsCutOff(w: World, p: Pools, f: string)
    requires Inv(w, p) && w.c.stray.files == {} && w.c.stray.cut == {} && f in w.c.host.files && NoRowAt(w.c, f)
    ensures CutOff(w, f)
  {
    hide CoreInv, LocalInv, FansInv, ImagesInv, DisksInv, BrokenInv, RootfsPath, NoRowAt, OpInv;
    CoreOf(w, p);
    UnnamedIsLoose(w.c, p);
    if id :| id in w.ops && Rowless(w.ops[id].pc) && f == RootfsPath(id) {
      LocalOf(w, p, id);
      if w.ops[id].pc.Prepare? {
        NotYetLaid(w, id);
      }
      assert Preparing(w, id);
    } else {
      var fan :| fan in w.fans && w.fans[fan].staged && f == BakedPath(w, fan);
      assert StagedAlone(w, fan);
    }
  }

  lemma CutOffIsUnnamed(w: World, p: Pools, f: string)
    requires Inv(w, p) && CutOff(w, f)
    ensures f in w.c.host.files && NoRowAt(w.c, f)
  {
    hide Inv, RootfsPath, NoRowAt, Preparing;
    if id :| Preparing(w, id) && f == RootfsPath(id) {
      PreparedIsCutOff(w, p, id);
    }
  }

  lemma NotYetLaid(w: World, id: Id)
    requires LocalInv(w, id) && id in w.ops && w.ops[id].pc.Prepare?
    ensures RootfsPath(id) !in w.c.loose
  {
    hide RootfsPath, FreshDisk;
  }

  /** If nothing leaked before the crash, the reconciliation leaves no tap and no rule. It leaves exactly the disks of
      the creates that had prepared theirs and had no row yet, and the disks that fan-outs had staged; so no file is
      left if and only if there was no such operation. And it leaves exactly the processes whose id had not reached
      their row. */
  lemma CrashLeavesExactly(p: Pools, es: seq<Event>, rs: seq<Event>)
    requires EnabledRun(INIT, p, es) && LeakFree(INIT, p, es) && forall e | e in es :: !e.Crash?
    requires EnabledRun(CrashStep(Exec(INIT, p, es)), p, rs) && forall e | e in rs :: Recovers(e)
    ensures var w := Exec(INIT, p, es);
            var u := Exec(CrashStep(w), p, rs);
            Settled(u) ==>
              && u.c.t.sandboxes == map[] && u.c.host.taps == map[] && u.c.host.rules == multiset{}
              && (forall f :: f in u.c.host.files <==> CutOff(w, f))
              && (u.c.host.files == {} <==> (forall id :: !Preparing(w, id)) && (forall fan :: !StagedAlone(w, fan)))
              && u.leftover == Orphans(w) && (u.leftover == map[] <==> Unrecorded(w) == {})
  {
    var w := Exec(INIT, p, es);
    var u := Exec(CrashStep(w), p, rs);
    InitInv(p);
    ReachableInv(p, es);
    LeakFreeStrays(INIT, p, es);
    NoCrashNoLeftover(p, es);
    CrashThenReconcile(p, es, rs);
    hide Inv, CutOff, NoRowAt, TapOfRow, Followed, LeakFree, EnabledRun, Orphans, Unrecorded, Recovers, Preparing,
      StagedAlone;
    if Settled(u) {
      ExactlyCutOff(w, u, p);
      NoOrphans(w);
      OnlyOrphans(w, u);
      NoStrayLeft(w.c.stray, u.c.host);
    }
  }

  lemma NoCrashNoLeftover(p: Pools, es: seq<Event>)
    requires EnabledRun(INIT, p, es) && forall e | e in es :: !e.Crash?
    ensures Exec(INIT, p, es).leftover == map[]
  {
    hide Lost, Followed, EnabledRun, Exec;
    var w := Exec(INIT, p, es);
    forall id ensures id !in w.leftover {
      CrashFreeLosesNone(INIT, p, es, id);
      NothingIsForgotten(p, es, id);
    }
  }

  lemma NoStrayLeft(s: Strays, h: Host)
    requires s == NO_STRAYS && h.taps.Keys <= s.taps && h.rules <= s.rules
    ensures h.taps == map[] && h.rules == multiset{}
  {
    assert forall r :: h.rules[r] <= NO_STRAYS.rules[r];
  }

  lemma OnlyOrphans(w: World, u: World)
    requires w.leftover == map[] && u.leftover == w.leftover + Orphans(w)
    ensures u.leftover == Orphans(w)
  {
    hide Orphans;
  }

  lemma ExactlyCutOff(w: World, u: World, p: Pools)
    requires Inv(w, p) && w.c.stray.files == {} && w.c.stray.cut == {}
    requires u.c.host.files == set f | f in w.c.host.files && NoRowAt(w.c, f)
    ensures forall f :: f in u.c.host.files <==> CutOff(w, f)
    ensures u.c.host.files == {} <==> (forall id :: !Preparing(w, id)) && (forall fan :: !StagedAlone(w, fan))
  {
    hide Inv, CutOff, NoRowAt, Preparing, StagedAlone;
    forall f ensures f in u.c.host.files <==> CutOff(w, f) {
      if f in u.c.host.files {
        UnnamedIsCutOff(w, p, f);
      } else if CutOff(w, f) {
        CutOffIsUnnamed(w, p, f);
      }
    }
    NoneCutOff(w);
  }

  lemma NoneCutOff(w: World)
    ensures (forall f :: !CutOff(w, f)) <==> (forall id :: !Preparing(w, id)) && (forall fan :: !StagedAlone(w, fan))
  {
    hide Preparing, StagedAlone, RootfsPath;
    if forall f :: !CutOff(w, f) {
      forall id ensures !Preparing(w, id) {
        assert !CutOff(w, RootfsPath(id));
      }
      forall fan ensures !StagedAlone(w, fan) {
        if StagedAlone(w, fan) {
          StagedCutsOff(w, fan);
        }
      }
    }
  }

  lemma StagedCutsOff(w: World, fan: Id)
    requires StagedAlone(w, fan)
    ensures fan in w.fans && CutOff(w, BakedPath(w, fan))
  {
  }

  lemma NoOrphans(w: World)
    ensures Orphans(w) == map[] <==> Unrecorded(w) == {}
  {
    hide Unrecorded;
    assert Orphans(w).Keys == Unrecorded(w);
  }

  // --- every reconciliation can be completed ---

  /** The commands for one row. */
  lemma {:induction false} Drain(w: World, p: Pools, id: Id) returns (rs: seq<Event>)
    requires Recovering(w) && id in w.ops
    ensures EnabledRun(w, p, rs) && (forall e | e in rs :: Recovers(e))
    ensures Recovering(Exec(w, p, rs)) && Exec(w, p, rs).ops == w.ops - {id}
    decreases Rank(w, id)
  {
    hide Enabled, Apply, Rank, RankOf, PortsRead, NextPc, HostStep, ProcessStep;
    var e := SomethingToDo(w, id, w.ops[id]);
    var v := Apply(w, p, e);
    RecoveryContinues(w, p, e);
    RecoveryTakes(w, p, e);
    RankFalls(w, p, e, id);
    rs := [];
    if id in v.ops {
      rs := Drain(v, p, id);
      assert v.ops - {id} == w.ops - {id};
    }
    RunAppend(w, p, [e], rs);
    rs := [e] + rs;
  }

  /** From every crash a sequence of commands leads to the end of the reconciliation. */
  lemma {:induction false} Completes(w: World, p: Pools) returns (rs: seq<Event>)
    requires Recovering(w)
    ensures EnabledRun(w, p, rs) && (forall e | e in rs :: Recovers(e)) && Settled(Exec(w, p, rs))
    decreases |w.ops|
  {
    rs := [];
    if w.ops == map[] {
      EmptyIsSettled(w);
    } else {
      var id :| id in w.ops;
      var first := Drain(w, p, id);
      var v := Exec(w, p, first);
      assert |w.ops| > |v.ops| by {
        FewerKeys(w.ops, v.ops, id);
      }
      hide Recovering, Settled, Recovers, Enabled, Apply;
      var rest := Completes(v, p);
      RunAppend(w, p, first, rest);
      rs := first + rest;
    }
  }

  lemma FewerKeys(m: map<Id, Op>, n: map<Id, Op>, id: Id)
    requires id in m && n == m - {id}
    ensures |n| < |m|
  {
    assert m.Keys == n.Keys + {id};
  }

  lemma EmptyIsSettled(w: World)
    requires w.ops == map[]
    ensures Settled(w)
  {
  }
}
