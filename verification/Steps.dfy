/** Each command of the state machine fits the books, keeps the invariant of its sandbox, and leaves every other
    sandbox alone. */
module Steps {
  import opened Wrappers
  import opened Pools
  import opened Tables
  import opened History
  import opened Hosts
  import opened Ledger
  import opened Commands
  import opened Lifecycle
  import opened Safety

  // --- what a step of one sandbox does not touch ---

  ghost predicate OnlyFor(w: World, v: World, id: Id) {
    && OneEntry(w.c.t.sandboxes, v.c.t.sandboxes, id) && OneEntry(w.ops, v.ops, id)
    && OneEntry(w.guests, v.guests, id) && OneEntry(w.machines, v.machines, id) && OneEntry(w.leftover, v.leftover, id)
    && (forall k: (Id, int) | k.0 != id :: k in w.broken <==> k in v.broken)
    && v.fans == w.fans && v.images == w.images && v.c.t.snapshots == w.c.t.snapshots
  }

  /** A step for sandbox id whose command is cmd. */
  ghost predicate StepFor(w: World, v: World, id: Id, cmd: Command) {
    OnlyFor(w, v, id) && v.c == Run(w.c, id, cmd) && Small(w.c, v.c, id, cmd)
  }

  lemma EntriesOnly(w: World, v: World, id: Id, cmd: Command)
    requires v.c == Run(w.c, id, cmd) && v == w.(c := v.c, ops := v.ops, guests := v.guests, leftover := v.leftover)
    requires OneEntry(w.ops, v.ops, id) && OneEntry(w.guests, v.guests, id) && OneEntry(w.leftover, v.leftover, id)
    ensures StepFor(w, v, id, cmd)
  {
    hide Run, SmallHost;
    RunIsSmall(w.c, id, cmd);
  }

  lemma IdleRun(c: Core, id: Id)
    ensures Run(c, id, Idles) == c
  {
  }

  lemma MovedOnly(w: World, id: Id, op: Op, out: Outcome, cmd: Command, next: Next)
    ensures StepFor(w, Moved(w, id, op, out, cmd, next), id, cmd)
  {
    hide Run, MachineOf, Launched, Stops, RowOf;
    RunIsSmall(w.c, id, cmd);
  }

  /** The path of a new row is the sandbox's own, or that of a disk seen before. */
  ghost predicate KnownPath(c: Core, id: Id, cmd: Command) {
    cmd.InsertsRow? ==>
      || (cmd.row.rootfsPath == RootfsPath(id) && FreshDisk(c.seen, id))
      || (!cmd.laid && exists d :: d in c.seen && d.path == cmd.row.rootfsPath)
  }

  /** The disks and loose files that other operations without a row rely on are other files. */
  ghost predicate OtherDisksApart(c: Core, d: Core, id: Id) {
    forall j | j != id && FreshDisk(c.seen, j) :: FreshDisk(d.seen, j) && (RootfsPath(j) in c.loose <==> RootfsPath(j) in d.loose)
  }

  lemma SmallIsApart(c: Core, d: Core, id: Id, cmd: Command)
    requires Small(c, d, id, cmd) && KnownPath(c, id, cmd)
    ensures OtherDisksApart(c, d, id)
  {
    forall j | j != id ensures RootfsPath(j) != RootfsPath(id) {
      RootfsPathInjective(j, id);
    }
    hide RootfsPath, OneEntry, RowOf;
  }

  lemma FrameOthers(w: World, v: World, id: Id)
    requires OnlyFor(w, v, id) && OthersSame(w.c, v.c, id) && OtherDisksApart(w.c, v.c, id)
    ensures forall j | j != id :: Framed(w, v, j)
  {
    hide SameButDisk, FreshDisk;
  }

  /** Where an operation can go on: a clone past its bring-up stays past it and never parks again, nobody goes back to
      the copy, and an exposure keeps to its port. */
  predicate Onward(op: Op, next: Next) {
    next.GoOn? ==>
      && (op.kind.Clone? && Late(op.pc) ==> Late(next.pc) && !next.pc.Parked?)
      && !next.pc.Copy? && !next.pc.Prepare? && (Rowless(next.pc) ==> Rowless(op.pc))
      && (Exposing(next.pc) ==> (Exposing(op.pc) || op.pc.Allocate?) && next.pc.guestPort == op.pc.guestPort)
  }

  lemma GoesOnward(c: Core, p: Pools, id: Id, op: Op, out: Outcome)
    ensures Rowless(op.pc) || GoesUp(op.pc) || GoesDown(op.pc) || Exposing(op.pc) || op.pc.Allocate?
    ensures Onward(op, NextOf(c, p, id, op, out))
    ensures !Rowless(op.pc) ==> !BeforeRow(CommandOf(c, p, id, op, out))
  {
    hide Registered, Allotted, Primary, AllRules;
  }

  // --- coming up ---

  lemma CopyStep(w: World, id: Id, op: Op, out: Outcome)
    requires LocalInv(w, id) && Works(w, id, op) && op.pc.Copy?
    ensures LocalInv(UpStep(w, id, op, out), id)
  {
    hide Primary, FreshDisk, RootfsPath, ExposeInv, RowlessInv;
  }

  lemma CreateTapStep(w: World, id: Id, op: Op, out: Outcome)
    requires LocalInv(w, id) && Works(w, id, op) && op.pc.CreateTap?
    ensures LocalInv(UpStep(w, id, op, out), id)
  {
    hide Primary, FreshDisk, RootfsPath, ExposeInv, RowlessInv;
  }

  lemma AttachStep(w: World, id: Id, op: Op, out: Outcome)
    requires LocalInv(w, id) && Works(w, id, op) && op.pc.Attach?
    ensures LocalInv(UpStep(w, id, op, out), id)
  {
    hide Primary, FreshDisk, RootfsPath, ExposeInv, RowlessInv;
  }

  lemma LaunchStep(w: World, id: Id, op: Op, out: Outcome)
    requires LocalInv(w, id) && Works(w, id, op) && op.pc.Launch?
    ensures LocalInv(UpStep(w, id, op, out), id)
  {
    hide Primary, FreshDisk, RootfsPath, ExposeInv, RowlessInv;
  }

  lemma ParkedStep(w: World, id: Id, op: Op, out: Outcome)
    requires LocalInv(w, id) && Works(w, id, op) && (op.pc.Parked? || op.pc.FindPid?)
    requires op.pc.Parked? && id in w.guests ==> Reidentified(w.guests[id])
    ensures LocalInv(UpStep(w, id, op, out), id)
  {
    hide Primary, FreshDisk, RootfsPath;
  }

  lemma ForwardPreStep(w: World, id: Id, op: Op, out: Outcome)
    requires LocalInv(w, id) && Works(w, id, op) && op.pc.ForwardPre?
    ensures LocalInv(UpStep(w, id, op, out), id)
  {
    hide Primary, FreshDisk, RootfsPath, ExposeInv, RowlessInv, Launched, LayDisk, DropDisk, InsertRow, RemoveRow,
      DropTap;
  }

  /** A sandbox without extra ports owns two rules. */
  lemma PrimaryOnly(c: Core, id: Id)
    requires id in c.t.sandboxes && NoPorts(c, id)
    ensures forall r | Owns(c.t, id, r) :: r == PreRule(RowOf(c, id)) || r == OutRule(RowOf(c, id))
    ensures forall r :: Owns(c.t, id, r) <==> r in Primary(c, id)
  {
    forall r | Owns(c.t, id, r) ensures r == PreRule(RowOf(c, id)) || r == OutRule(RowOf(c, id)) {
      assert r == Rule(r.chain, r.hostPort, r.ip, r.guestPort);
      assert r.chain == Prerouting || r.chain == Output;
    }
  }

  lemma ForwardOutStep(w: World, id: Id, op: Op, out: Outcome)
    requires LocalInv(w, id) && Works(w, id, op) && op.pc.ForwardOut?
    ensures LocalInv(UpStep(w, id, op, out), id)
  {
    hide LocalInv, UpStep, Works;
    if out.Done? {
      ForwardedStep(w, id, op, out);
    } else {
      HalfForwardedStep(w, id, op, out);
    }
  }

  lemma ForwardedStep(w: World, id: Id, op: Op, out: Outcome)
    requires LocalInv(w, id) && Works(w, id, op) && op.pc.ForwardOut? && out.Done?
    ensures LocalInv(UpStep(w, id, op, out), id)
  {
    hide Primary, FreshDisk, RootfsPath, ExposeInv, RowlessInv, Launched, LayDisk, DropDisk, InsertRow, RemoveRow,
      DropTap;
    PrimaryOnly(w.c, id);
  }

  lemma HalfForwardedStep(w: World, id: Id, op: Op, out: Outcome)
    requires LocalInv(w, id) && Works(w, id, op) && op.pc.ForwardOut? && !out.Done?
    ensures LocalInv(UpStep(w, id, op, out), id)
  {
    hide Primary, FreshDisk, RootfsPath, ExposeInv, RowlessInv, Launched, LayDisk, DropDisk, InsertRow, RemoveRow,
      DropTap;
    PrimaryOnly(w.c, id);
  }

  lemma RecordStep(w: World, id: Id, op: Op, out: Outcome)
    requires LocalInv(w, id) && Works(w, id, op) && op.pc.Record?
    ensures LocalInv(UpStep(w, id, op, out), id)
  {
    hide LocalInv, UpStep, Works;
    if out.Done? {
      RecordedStep(w, id, op, out);
    } else {
      UnrecordedStep(w, id, op, out);
    }
  }

  lemma RecordedStep(w: World, id: Id, op: Op, out: Outcome)
    requires LocalInv(w, id) && Works(w, id, op) && op.pc.Record? && out.Done?
    ensures LocalInv(UpStep(w, id, op, out), id)
  {
    hide Primary, FreshDisk, RootfsPath, ExposeInv, StopInv, RowlessInv, Launched, LayDisk, DropDisk, InsertRow,
      RemoveRow, DropTap;
  }

  lemma UnrecordedStep(w: World, id: Id, op: Op, out: Outcome)
    requires LocalInv(w, id) && Works(w, id, op) && op.pc.Record? && !out.Done?
    ensures LocalInv(UpStep(w, id, op, out), id)
  {
    hide Primary, FreshDisk, RootfsPath, ExposeInv, RowlessInv, Launched, LayDisk, DropDisk, InsertRow, RemoveRow,
      DropTap;
    PrimaryOnly(w.c, id);
  }

  lemma AwaitStep(w: World, id: Id, op: Op, out: Outcome)
    requires LocalInv(w, id) && Works(w, id, op) && op.pc.Await?
    ensures LocalInv(UpStep(w, id, op, out), id)
  {
    hide Primary, FreshDisk, RootfsPath;
  }

  lemma UpLocal(w: World, id: Id, op: Op, out: Outcome)
    requires LocalInv(w, id) && Works(w, id, op) && GoesUp(op.pc)
    requires op.pc.Parked? && id in w.guests ==> Reidentified(w.guests[id])
    ensures LocalInv(UpStep(w, id, op, out), id)
  {
    hide LocalInv, UpStep, Works;
    match op.pc
    case Copy => CopyStep(w, id, op, out);
    case CreateTap => CreateTapStep(w, id, op, out);
    case Attach => AttachStep(w, id, op, out);
    case Launch => LaunchStep(w, id, op, out);
    case Parked => ParkedStep(w, id, op, out);
    case FindPid => ParkedStep(w, id, op, out);
    case ForwardPre => ForwardPreStep(w, id, op, out);
    case ForwardOut => ForwardOutStep(w, id, op, out);
    case Record => RecordStep(w, id, op, out);
    case Await => AwaitStep(w, id, op, out);
  }

  // --- going down ---

  lemma HaltStep(w: World, id: Id, op: Op, out: Outcome)
    requires LocalInv(w, id) && Works(w, id, op) && (op.pc.Undo? || op.pc.Halt?) && CanAdvance(w, id, op, out)
    ensures LocalInv(DownStep(w, id, op, out), id)
  {
    hide Primary, AllRules, FreshDisk, RootfsPath, ExposeInv, RowlessInv;
  }

  lemma RollTapStep(w: World, id: Id, op: Op, out: Outcome)
    requires LocalInv(w, id) && Works(w, id, op) && op.pc.RollTap?
    ensures LocalInv(DownStep(w, id, op, out), id)
  {
    hide Primary, AllRules, FreshDisk, RootfsPath, ExposeInv, RowlessInv;
  }

  lemma RollDiskStep(w: World, id: Id, op: Op, out: Outcome)
    requires LocalInv(w, id) && Works(w, id, op) && op.pc.RollDisk?
    ensures LocalInv(DownStep(w, id, op, out), id)
  {
    hide Primary, AllRules, FreshDisk, RootfsPath, ExposeInv, RowlessInv;
  }

  lemma LookupStep(w: World, id: Id, op: Op, out: Outcome)
    requires LocalInv(w, id) && Works(w, id, op) && op.pc.Lookup?
    ensures LocalInv(DownStep(w, id, op, out), id)
  {
    hide Primary, AllRules, FreshDisk, RootfsPath, ExposeInv, RowlessInv;
    RulesOfAreOwned(w.c, id);
  }

  lemma RulesOfAreOwned(c: Core, id: Id)
    ensures forall r :: r in AllRules(c, id) <==> Owns(c.t, id, r)
    ensures forall r | r in Primary(c, id) :: Owns(c.t, id, r)
  {
    forall r | id in c.t.sandboxes ensures r in AllRules(c, id) <==> Owns(c.t, id, r) {
      RulesOfIsOwned(c.t, id, r);
    }
  }

  lemma ShutdownStep(w: World, id: Id, op: Op, out: Outcome)
    requires LocalInv(w, id) && Works(w, id, op) && (op.pc.Shutdown? || op.pc.DropRules?) && CanAdvance(w, id, op, out)
    ensures LocalInv(DownStep(w, id, op, out), id)
  {
    hide Primary, AllRules, FreshDisk, RootfsPath;
  }

  lemma DestroyTapStep(w: World, id: Id, op: Op, out: Outcome)
    requires LocalInv(w, id) && Works(w, id, op) && op.pc.DestroyTap?
    ensures LocalInv(DownStep(w, id, op, out), id)
  {
    hide Primary, AllRules, FreshDisk, RootfsPath, ExposeInv, StartInv, RowlessInv, Launched, LayDisk, DropDisk,
      InsertRow, RemoveRow;
  }

  lemma DestroyDiskStep(w: World, id: Id, op: Op, out: Outcome)
    requires LocalInv(w, id) && Works(w, id, op) && op.pc.DestroyDisk?
    ensures LocalInv(DownStep(w, id, op, out), id)
  {
    hide Primary, AllRules, FreshDisk, RootfsPath;
  }

  lemma RowGoesStep(w: World, id: Id, op: Op, out: Outcome)
    requires LocalInv(w, id) && Works(w, id, op) && RowGoes(op.pc)
    ensures LocalInv(DownStep(w, id, op, out), id)
  {
    hide Primary, AllRules, FreshDisk, RootfsPath;
  }

  lemma DownLocal(w: World, id: Id, op: Op, out: Outcome)
    requires LocalInv(w, id) && Works(w, id, op) && GoesDown(op.pc) && CanAdvance(w, id, op, out)
    ensures LocalInv(DownStep(w, id, op, out), id)
  {
    hide LocalInv, DownStep, Works, CanAdvance;
    match op.pc
    case Undo(_) => HaltStep(w, id, op, out);
    case Halt => HaltStep(w, id, op, out);
    case RollTap => RollTapStep(w, id, op, out);
    case RollDisk => RollDiskStep(w, id, op, out);
    case RollRow => RowGoesStep(w, id, op, out);
    case Lookup => LookupStep(w, id, op, out);
    case Shutdown(_, _) => ShutdownStep(w, id, op, out);
    case DropRules(_, _) => ShutdownStep(w, id, op, out);
    case DestroyTap(_) => DestroyTapStep(w, id, op, out);
    case DestroyDisk(_) => DestroyDiskStep(w, id, op, out);
    case DestroyRow(_) => RowGoesStep(w, id, op, out);
  }

  lemma RemoveRuleLocal(w: World, id: Id, op: Op, r: Rule, out: Outcome)
    requires LocalInv(w, id) && Works(w, id, op) && CanRemove(op.pc, r)
    ensures LocalInv(RemoveRuleStep(w, id, op, r, out), id)
  {
    hide FreshDisk, RootfsPath;
  }

  // --- handleCreate before its row ---

  /** A sandbox whose row is about to be inserted holds nothing yet, and neither does anyone under its address. */
  ghost predicate HoldsNothing(c: Core, id: Id, row: Sandbox) {
    && id !in c.t.sandboxes && id !in c.led.taps && id !in c.led.files && NoPorts(c, id)
    && forall r: Rule | r.ip == row.ip :: r !in c.led.rules
  }

  lemma NewRowHoldsNothing(c: Core, p: Pools, id: Id, row: Sandbox)
    requires CoreInv(c, p) && Insertable(c.t, id, row) && row.status.Running?
    ensures HoldsNothing(c, id, row)
  {
    forall r: Rule | r.ip == row.ip ensures r !in c.led.rules {
      if j :| Owns(c.t, j, r) {
        InsertableIsApart(c.t, id, row, j);
      }
    }
  }

  /** The operation of a sandbox whose row was just inserted. */
  lemma NewRowLocal(w: World, id: Id, row: Sandbox, laid: bool, op: Op)
    requires LocalInv(w, id) && HoldsNothing(w.c, id, row)
    requires op.kind.Cold? || (op.kind.Restored? && op.kind.image == Memory(Some(row.ip), ""))
             || (op.kind.Clone? && id != "" && op.kind.image.lastGen == "")
    requires op.pc == if laid then CreateTap else Copy
    ensures LocalInv(w.(c := InsertRow(w.c, id, row, laid), ops := w.ops[id := op]), id)
  {
    hide FreshDisk, RootfsPath;
  }

  lemma CreatedFacts(c: Core, p: Pools, id: Id, path: string, e: Option<int>)
    requires CoreInv(c, p)
    ensures var r := Create(c.t, p, id, path, e);
            r.Ok? ==> HoldsNothing(c, id, r.value) && r.value.rootfsPath == path
  {
    hide CoreInv, Create;
    CreatedIsInsertable(c.t, p, id, path, e);
    var r := Create(c.t, p, id, path, e);
    if r.Ok? {
      NewRowHoldsNothing(c, p, id, r.value);
    }
  }

  lemma ColdLocal(w: World, p: Pools, id: Id, op: Op, out: Outcome)
    requires CoreInv(w.c, p) && LocalInv(w, id) && Works(w, id, op) && Rowless(op.pc)
    ensures LocalInv(ColdStep(w, p, id, op, out), id)
  {
    hide CoreInv, LocalInv, ColdStep, Create, RootfsPath, RowlessInv;
    if op.pc.Alloc? && Registered(w.c, p, id, op.pc).Ok? && out.Done? {
      AllocLocal(w, p, id, op, out);
    } else {
      RowlessLocal(w, p, id, op, out);
    }
  }

  lemma AllocLocal(w: World, p: Pools, id: Id, op: Op, out: Outcome)
    requires CoreInv(w.c, p) && LocalInv(w, id) && Works(w, id, op) && op.pc.Alloc? && out.Done?
    requires Registered(w.c, p, id, op.pc).Ok?
    ensures LocalInv(ColdStep(w, p, id, op, out), id)
  {
    hide CoreInv, Create, RootfsPath, HoldsNothing, StartInv, StopInv, FullInv, ExposeInv, GuestInv, MachineInv;
    var row := Registered(w.c, p, id, op.pc).value;
    CreatedFacts(w.c, p, id, RootfsPath(id), op.pc.expiresAt);
    NewRowLocal(w, id, row, true, Op(Cold, CreateTap));
    assert ColdStep(w, p, id, op, out) == w.(c := InsertRow(w.c, id, row, true), ops := w.ops[id := Op(Cold, CreateTap)]);
    hide LocalInv;
  }

  lemma RowlessLocal(w: World, p: Pools, id: Id, op: Op, out: Outcome)
    requires LocalInv(w, id) && Works(w, id, op) && Rowless(op.pc)
    requires !(op.pc.Alloc? && Registered(w.c, p, id, op.pc).Ok? && out.Done?)
    ensures LocalInv(ColdStep(w, p, id, op, out), id)
  {
    hide Create, RootfsPath, InsertRow, StartInv, StopInv, FullInv, ExposeInv;
  }

  // --- handleExposePort ---

  /** No rule of a port that is not exposed is in force. */
  lemma UnexposedHasNoRules(c: Core, p: Pools, id: Id, gp: int)
    requires CoreInv(c, p) && id in c.t.sandboxes && gp != PRIMARY_PORT && (id, gp) !in c.t.ports
    ensures forall r: Rule | r.ip == RowOf(c, id).ip && r.guestPort == gp :: r !in c.led.rules
  {
    forall r: Rule | r.ip == RowOf(c, id).ip && r.guestPort == gp ensures r !in c.led.rules {
      if j :| Owns(c.t, j, r) {
        OneOwner(c.t, j, id, r);
      }
    }
  }

  lemma AllocateStep(w: World, p: Pools, id: Id, op: Op, out: Outcome)
    requires LocalInv(w, id) && Works(w, id, op) && op.pc.Allocate?
    requires forall r: Rule | r.ip == RowOf(w.c, id).ip && r.guestPort == op.pc.guestPort :: r !in w.c.led.rules
    ensures LocalInv(ExposeStep(w, p, id, op, out), id)
  {
    hide Allotted, FreshDisk, RootfsPath, StartInv, StopInv, FullInv, RowlessInv, Launched, LayDisk, DropDisk,
      InsertRow, RemoveRow, DropTap;
  }

  lemma ExposePreStep(w: World, p: Pools, id: Id, op: Op, out: Outcome)
    requires LocalInv(w, id) && Works(w, id, op) && op.pc.ExposePre?
    ensures LocalInv(ExposeStep(w, p, id, op, out), id)
  {
    hide Allotted, FreshDisk, RootfsPath, StartInv, StopInv, FullInv, RowlessInv, Launched, LayDisk, DropDisk,
      InsertRow, RemoveRow, DropTap;
  }

  lemma ExposeOutStep(w: World, p: Pools, id: Id, op: Op, out: Outcome)
    requires LocalInv(w, id) && Works(w, id, op) && op.pc.ExposeOut?
    ensures LocalInv(ExposeStep(w, p, id, op, out), id)
  {
    hide LocalInv, ExposeStep, Works;
    if out.Done? {
      SecondRuleStep(w, p, id, op, out);
    } else {
      HalfExposedStep(w, p, id, op, out);
    }
  }

  lemma SecondRuleStep(w: World, p: Pools, id: Id, op: Op, out: Outcome)
    requires LocalInv(w, id) && Works(w, id, op) && op.pc.ExposeOut? && out.Done?
    ensures LocalInv(ExposeStep(w, p, id, op, out), id)
  {
    hide Allotted, FreshDisk, RootfsPath, StartInv, StopInv, FullInv, RowlessInv, Launched, LayDisk, DropDisk,
      InsertRow, RemoveRow, DropTap;
    PortOwnsTwo(w.c, id, op.pc.guestPort);
  }

  lemma HalfExposedStep(w: World, p: Pools, id: Id, op: Op, out: Outcome)
    requires LocalInv(w, id) && Works(w, id, op) && op.pc.ExposeOut? && !out.Done?
    ensures LocalInv(ExposeStep(w, p, id, op, out), id)
  {
    hide Allotted, FreshDisk, RootfsPath, StartInv, StopInv, FullInv, RowlessInv, Launched, LayDisk, DropDisk,
      InsertRow, RemoveRow, DropTap, ForsakeRule;
    PortOwnsTwo(w.c, id, op.pc.guestPort);
    ForsakenRule(w.c, ExtraRule(w.c, id, Prerouting, op.pc.guestPort));
  }

  lemma ForsakenRule(c: Core, r: Rule)
    ensures var d := ForsakeRule(c, r);
            d == c.(led := d.led, stray := d.stray) && d.led == c.led.(rules := c.led.rules - {r})
  {
    assert r !in c.led.rules ==> c.led.rules - {r} == c.led.rules;
  }

  lemma PortOwnsTwo(c: Core, id: Id, gp: int)
    requires id in c.t.sandboxes && gp != PRIMARY_PORT && (id, gp) in c.t.ports
    ensures forall r | Owns(c.t, id, r) && r.guestPort == gp :: r == ExtraRule(c, id, Prerouting, gp)
                                                                || r == ExtraRule(c, id, Output, gp)
  {
    forall r | Owns(c.t, id, r) && r.guestPort == gp ensures r == ExtraRule(c, id, Prerouting, gp)
                                                             || r == ExtraRule(c, id, Output, gp) {
      assert r == Rule(r.chain, r.hostPort, r.ip, r.guestPort);
      assert r.chain == Prerouting || r.chain == Output;
    }
  }

  lemma UnexposeStep(w: World, p: Pools, id: Id, op: Op, out: Outcome)
    requires LocalInv(w, id) && Works(w, id, op) && op.pc.Unexpose?
    ensures LocalInv(ExposeStep(w, p, id, op, out), id)
  {
    hide Allotted, FreshDisk, RootfsPath;
  }

  lemma UnallocatedPort(w: World, id: Id, op: Op)
    requires LocalInv(w, id) && Works(w, id, op) && op.pc.Allocate?
    ensures id in w.c.t.sandboxes && op.pc.guestPort != PRIMARY_PORT && (id, op.pc.guestPort) !in w.c.t.ports
  {
    hide GuestInv, MachineInv, FreshDisk, RootfsPath, Complete;
  }

  lemma ExposeLocal(w: World, p: Pools, id: Id, op: Op, out: Outcome)
    requires CoreInv(w.c, p) && LocalInv(w, id) && Works(w, id, op) && (Exposing(op.pc) || op.pc.Allocate?)
    ensures LocalInv(ExposeStep(w, p, id, op, out), id)
  {
    hide CoreInv, LocalInv, ExposeStep, Works;
    match op.pc
    case Allocate(gp) =>
      UnallocatedPort(w, id, op);
      UnexposedHasNoRules(w.c, p, id, gp);
      AllocateStep(w, p, id, op, out);
    case ExposePre(_) => ExposePreStep(w, p, id, op, out);
    case ExposeOut(_) => ExposeOutStep(w, p, id, op, out);
    case Unexpose(_) => UnexposeStep(w, p, id, op, out);
  }
}
