/** What a step of one sandbox must keep to for the whole to keep its invariant; every command of every operation
    keeps to it. */
module Reachable {
  import opened Wrappers
  import opened Pools
  import opened Tables
  import opened History
  import opened Hosts
  import opened Ledger
  import opened Commands
  import opened Lifecycle
  import opened Safety
  import opened Steps

  // --- every command fits ---

  lemma ColdFits(w: World, p: Pools, id: Id, op: Op, out: Outcome)
    requires CoreInv(w.c, p) && LocalInv(w, id) && DisksInv(w) && Works(w, id, op) && Rowless(op.pc)
    ensures var cmd := ColdCommand(Registered(w.c, p, id, op.pc), op.pc, out);
            Fits(w.c, p, id, cmd) && KnownPath(w.c, id, cmd)
  {
    hide CoreInv, Create, RootfsPath, BookInv, FreshDisk;
    assert FreshDisk(w.c.seen, id);
    if op.pc.Alloc? {
      CreatedFits(w.c, p, id, op.pc.expiresAt, true);
    }
  }

  lemma UpFits(w: World, p: Pools, id: Id, op: Op, out: Outcome)
    requires LocalInv(w, id) && DisksInv(w) && Works(w, id, op) && GoesUp(op.pc) && CanAdvance(w, id, op, out)
    ensures Fits(w.c, p, id, UpCommand(RowOf(w.c, id), op, out))
  {
    hide BookInv, RootfsPath, FreshDisk;
  }

  lemma DownFits(w: World, p: Pools, id: Id, op: Op, out: Outcome)
    requires LocalInv(w, id) && Works(w, id, op) && GoesDown(op.pc)
    ensures Fits(w.c, p, id, DownCommand(op.pc, out))
  {
    hide BookInv, RootfsPath, FreshDisk;
  }

  lemma ExposeFits(w: World, p: Pools, id: Id, op: Op, out: Outcome)
    requires LocalInv(w, id) && Works(w, id, op) && (Exposing(op.pc) || op.pc.Allocate?)
    ensures Fits(w.c, p, id, ExposeCommand(w.c, id, Allotted(w.c, p, id, op.pc), op.pc, out))
  {
    hide BookInv, RootfsPath, FreshDisk, AddPort;
  }

  lemma AdvanceFits(w: World, p: Pools, id: Id, op: Op, out: Outcome)
    requires CoreInv(w.c, p) && LocalInv(w, id) && DisksInv(w) && Works(w, id, op) && CanAdvance(w, id, op, out)
    ensures var cmd := CommandOf(w.c, p, id, op, out); Fits(w.c, p, id, cmd) && KnownPath(w.c, id, cmd)
  {
    hide CoreInv, LocalInv, DisksInv, Works, CanAdvance, Fits, Registered, Allotted, ExtraRule, PreRule, OutRule;
    GoesOnward(w.c, p, id, op, out);
    if Rowless(op.pc) {
      ColdFits(w, p, id, op, out);
    } else if GoesUp(op.pc) {
      UpFits(w, p, id, op, out);
    } else if GoesDown(op.pc) {
      DownFits(w, p, id, op, out);
    } else {
      ExposeFits(w, p, id, op, out);
    }
  }

  // --- the sandboxes that a step does not act for ---

  lemma OthersLocal(w: World, v: World, id: Id)
    requires (forall j :: LocalInv(w, j)) && LocalInv(v, id)
    requires forall j | j != id :: Framed(w, v, j)
    ensures forall j :: LocalInv(v, j)
  {
    hide Framed, LocalInv;
    forall j ensures LocalInv(v, j) {
      if j != id {
        FramedLocal(w, v, j);
      }
    }
  }

  lemma OthersBroken(w: World, v: World, id: Id)
    requires (forall j :: BrokenInv(w, j)) && BrokenInv(v, id)
    requires forall j | j != id :: Framed(w, v, j)
    ensures forall j :: BrokenInv(v, j)
  {
    hide Framed, BrokenInv;
    forall j ensures BrokenInv(v, j) {
      if j != id {
        FramedBroken(w, v, j);
      }
    }
  }

  // --- the files that a step touches ---

  /** The disk of a sandbox that has neither row nor record. */
  ghost predicate Own(c: Core, id: Id, f: string) {
    f == RootfsPath(id) && FreshDisk(c.seen, id)
  }

  /** No loose file but the sandbox's own comes or goes, and no file goes but its disk. */
  ghost predicate FilesFor(c: Core, d: Core, id: Id) {
    && (forall f | !Own(c, id, f) :: f in c.loose <==> f in d.loose)
    && (forall f | f in c.host.files && f !in d.host.files :: Own(c, id, f)
                                                              || (id in c.t.sandboxes && f == RowOf(c, id).rootfsPath))
  }

  lemma FitsFiles(c: Core, d: Core, p: Pools, id: Id, cmd: Command)
    requires Fits(c, p, id, cmd) && KnownPath(c, id, cmd) && Small(c, d, id, cmd) && d == Run(c, id, cmd)
    ensures FilesFor(c, d, id)
  {
    hide RootfsPath, FreshDisk, BookInv, AddPort, SmallTables, Owns;
  }

  /** A disk that has been seen is nobody's own. */
  lemma SeenIsNotOwn(c: Core, p: Pools, id: Id)
    requires CoreInv(c, p)
    ensures forall j | j in c.t.sandboxes :: !Own(c, id, c.t.sandboxes[j].rootfsPath)
    ensures forall d | d in c.seen :: !Own(c, id, d.path)
  {
    hide RootfsPath, TapsBalance, FilesBalance, RulesBalance;
    forall j | j in c.t.sandboxes ensures !Own(c, id, c.t.sandboxes[j].rootfsPath) {
      assert DiskOf(c.t.sandboxes[j]) in c.seen;
    }
  }

  // --- what the whole asks of the operation at work ---

  /** A clone that joins its fan-out late has had its bring-up before, and parks with its identity only. */
  ghost predicate FanFollows(w: World, v: World, id: Id) {
    id in v.ops && v.ops[id].kind.Clone? ==>
      || (v.ops[id].kind.fan in w.fans && w.fans[v.ops[id].kind.fan].phase.BringUp?)
      || (&& id in w.ops && w.ops[id].kind == v.ops[id].kind && (Late(w.ops[id].pc) ==> Late(v.ops[id].pc))
          && (Late(w.ops[id].pc) && v.ops[id].pc.Parked? && id in v.guests ==>
                w.ops[id].pc.Parked? && id in w.guests && (Reidentified(w.guests[id]) ==> Reidentified(v.guests[id]))))
  }

  /** A prepared disk is there, nothing is staged where a copy begins, and a disk stays prepared until its row. */
  ghost predicate DiskFollows(w: World, v: World, id: Id) {
    && (id in v.ops && Rowless(v.ops[id].pc) && !v.ops[id].pc.Prepare? ==> RootfsPath(id) in v.c.host.files)
    && (id in v.ops && v.ops[id].pc.Copy? && id in v.c.t.sandboxes ==> RowOf(v.c, id).rootfsPath !in v.c.loose)
    && (RootfsPath(id) in v.c.loose && (RootfsPath(id) !in w.c.loose || (id in w.ops && Rowless(w.ops[id].pc))) ==>
          id in v.ops && Rowless(v.ops[id].pc))
  }

  lemma FansFollow(w: World, v: World, id: Id, p: Pools)
    requires CoreInv(w.c, p) && FansInv(w) && OnlyFor(w, v, id) && w.c.seen <= v.c.seen && FilesFor(w.c, v.c, id)
    requires FanFollows(w, v, id)
    ensures FansInv(v)
  {
    SeenIsNotOwn(w.c, p, id);
    hide CoreInv, RootfsPath, Own, OneEntry, Late, Reidentified;
    forall fan ensures FanInv(v, fan) {
      assert FanInv(w, fan);
      FanStays(w, v, id, fan);
    }
  }

  lemma FanStays(w: World, v: World, id: Id, fan: Id)
    requires FanInv(w, fan) && OnlyFor(w, v, id) && w.c.seen <= v.c.seen && FanFollows(w, v, id)
    requires fan in w.fans && w.fans[fan].staged ==> w.fans[fan].snapshot.bakedPath in v.c.loose
    ensures FanInv(v, fan)
  {
    hide Late, Reidentified;
  }

  lemma LooseFollows(w: World, v: World, id: Id)
    requires LooseInv(w) && LocalInv(w, id) && OnlyFor(w, v, id) && FilesFor(w.c, v.c, id) && DiskFollows(w, v, id)
    ensures LooseInv(v)
  {
    hide RootfsPath, FreshDisk;
  }

  lemma DisksFollow(w: World, v: World, p: Pools, id: Id)
    requires CoreInv(w.c, p) && DisksInv(w) && (forall j :: LocalInv(w, j)) && OnlyFor(w, v, id)
    requires FilesFor(w.c, v.c, id) && DiskFollows(w, v, id)
    ensures DisksInv(v)
  {
    hide RootfsPath, CoreInv, LocalInv, Own;
    SeenIsNotOwn(w.c, p, id);
    RowlessIsFresh(w);
    forall j | j in v.ops && Rowless(v.ops[j].pc) && !v.ops[j].pc.Prepare? ensures RootfsPath(j) in v.c.host.files {
      if j != id {
        PreparedStays(w, v, p, id, j);
      }
    }
  }

  /** The prepared disk of another sandbox stays. */
  lemma PreparedStays(w: World, v: World, p: Pools, id: Id, j: Id)
    requires CoreInv(w.c, p) && FilesFor(w.c, v.c, id) && FreshDisk(w.c.seen, j) && j != id
    ensures RootfsPath(j) in w.c.host.files ==> RootfsPath(j) in v.c.host.files
  {
    hide RootfsPath, CoreInv, FreshDisk;
    RootfsPathInjective(j, id);
    SeenIsNotOwn(w.c, p, j);
  }

  /** A sandbox without a row has a fresh disk. */
  lemma RowlessIsFresh(w: World)
    requires forall id :: LocalInv(w, id)
    ensures forall id | id in w.ops && Rowless(w.ops[id].pc) :: FreshDisk(w.c.seen, id)
  {
    forall id | id in w.ops && Rowless(w.ops[id].pc) ensures FreshDisk(w.c.seen, id) {
      assert LocalInv(w, id);
    }
  }

  /** A step for one sandbox: its command fits, it keeps the sandbox's own invariant, and its operation goes on as the
      whole asks. */
  ghost predicate KeepsOrder(w: World, v: World, p: Pools, id: Id, cmd: Command) {
    && StepFor(w, v, id, cmd) && Fits(w.c, p, id, cmd) && KnownPath(w.c, id, cmd)
    && LocalInv(v, id) && BrokenInv(v, id) && FanFollows(w, v, id) && DiskFollows(w, v, id)
  }

  lemma OrderFrames(w: World, v: World, p: Pools, id: Id, cmd: Command)
    requires CoreInv(w.c, p) && KeepsOrder(w, v, p, id, cmd)
    ensures CoreInv(v.c, p) && OthersSame(w.c, v.c, id) && forall j | j != id :: Framed(w, v, j)
    ensures FilesFor(w.c, v.c, id)
  {
    hide CoreInv, OthersSame, Framed, FilesFor, OnlyFor, Small, Fits, KnownPath, LocalInv, BrokenInv, FanFollows,
      DiskFollows, OtherDisksApart, Run;
    CommandKeeps(w.c, p, id, cmd);
    SmallIsApart(w.c, v.c, id, cmd);
    FrameOthers(w, v, id);
    FitsFiles(w.c, v.c, p, id, cmd);
  }

  lemma OrderKeeps(w: World, v: World, p: Pools, id: Id, cmd: Command)
    requires Inv(w, p) && KeepsOrder(w, v, p, id, cmd)
    ensures Inv(v, p) && OthersSame(w.c, v.c, id)
  {
    hide CoreInv, OthersSame, Framed, FilesFor, Small, Fits, KnownPath, LocalInv, BrokenInv, FanFollows, DiskFollows,
      Run, FansInv, LooseInv, DisksInv;
    OrderFrames(w, v, p, id, cmd);
    OthersLocal(w, v, id);
    OthersBroken(w, v, id);
    assert LocalInv(w, id);
    SeenGrows(w.c, v.c, id, cmd);
    FansFollow(w, v, id, p);
    LooseFollows(w, v, id);
    DisksFollow(w, v, p, id);
  }

  lemma SeenGrows(c: Core, d: Core, id: Id, cmd: Command)
    requires Small(c, d, id, cmd)
    ensures c.seen <= d.seen
  {
  }

  // --- broken ports ---

  /** The port whose rules or row a command may change. */
  function PortOf(cmd: Command): Option<int> {
    match cmd
    case AppendsRule(r) => Some(r.guestPort)
    case InsertsPort(gp, _) => Some(gp)
    case RemovesPort(gp) => Some(gp)
    case _ => None
  }

  /** Of the sandbox's extra ports, but one, none goes away and none gets a rule. */
  ghost predicate KeepsPorts(c: Core, d: Core, id: Id, except: Option<int>) {
    id in d.t.sandboxes && forall gp | gp != PRIMARY_PORT && Some(gp) != except ::
      ((id, gp) in c.t.ports ==> (id, gp) in d.t.ports) && (NoRulesAt(c, id, gp) ==> NoRulesAt(d, id, gp))
  }

  lemma RunKeepsPorts(c: Core, id: Id, cmd: Command)
    requires id in c.t.sandboxes && !cmd.InsertsRow? && !cmd.DeletesRow?
    ensures KeepsPorts(c, Run(c, id, cmd), id, PortOf(cmd))
  {
    hide RootfsPath;
  }

  lemma BrokenFollows(w: World, v: World, id: Id, except: Option<int>)
    requires BrokenInv(w, id) && id in w.c.t.sandboxes && KeepsPorts(w.c, v.c, id, except) && v.broken == w.broken
    requires except.Some? ==> (id, except.value) !in w.broken
    requires id in v.ops && Exposing(v.ops[id].pc) ==> (id, v.ops[id].pc.guestPort) !in w.broken
    ensures BrokenInv(v, id)
  {
    hide NoRulesAt;
  }

  lemma AdvanceBroken(w: World, p: Pools, id: Id, op: Op, out: Outcome)
    requires BrokenInv(w, id) && LocalInv(w, id) && Works(w, id, op) && CanAdvance(w, id, op, out)
    ensures BrokenInv(AdvanceOp(w, p, id, op, out), id)
  {
    hide BrokenInv, LocalInv, CommandOf, NextOf, Run, KeepsPorts, Moved;
    GoesOnward(w.c, p, id, op, out);
    if Rowless(op.pc) || Deletes(op.pc, out) || (op.pc.Unexpose? && !out.Done?) {
      TurnBroken(w, p, id, op, out);
    } else {
      NotBroken(w, p, id, op, out);
      StillBroken(w, id, op, out, CommandOf(w.c, p, id, op, out), NextOf(w.c, p, id, op, out));
    }
  }

  lemma NotBroken(w: World, p: Pools, id: Id, op: Op, out: Outcome)
    requires BrokenInv(w, id) && LocalInv(w, id) && Works(w, id, op) && CanAdvance(w, id, op, out)
    requires !Rowless(op.pc) && !Deletes(op.pc, out)
    ensures var cmd := CommandOf(w.c, p, id, op, out);
            && id in w.c.t.sandboxes && !cmd.InsertsRow? && !cmd.DeletesRow?
            && (PortOf(cmd).Some? ==> (id, PortOf(cmd).value) !in w.broken)
            && (Exposing(op.pc) || op.pc.Allocate? ==> (id, op.pc.guestPort) !in w.broken)
  {
    hide AddPort, RootfsPath, GuestInv, MachineInv, StopInv, FullInv;
  }

  lemma StillBroken(w: World, id: Id, op: Op, out: Outcome, cmd: Command, next: Next)
    requires BrokenInv(w, id) && id in w.c.t.sandboxes && !cmd.InsertsRow? && !cmd.DeletesRow?
    requires Works(w, id, op) && Onward(op, next) && !Deletes(op.pc, out) && (op.pc.Unexpose? ==> out.Done?)
    requires PortOf(cmd).Some? ==> (id, PortOf(cmd).value) !in w.broken
    requires Exposing(op.pc) || op.pc.Allocate? ==> (id, op.pc.guestPort) !in w.broken
    ensures BrokenInv(Moved(w, id, op, out, cmd, next), id)
  {
    hide BrokenInv, KeepsPorts, Run, Launched;
    RunKeepsPorts(w.c, id, cmd);
    BrokenFollows(w, Moved(w, id, op, out, cmd, next), id, PortOf(cmd));
  }

  /** A row comes or goes, or a port breaks. */
  lemma TurnBroken(w: World, p: Pools, id: Id, op: Op, out: Outcome)
    requires BrokenInv(w, id) && LocalInv(w, id) && Works(w, id, op) && CanAdvance(w, id, op, out)
    requires Rowless(op.pc) || Deletes(op.pc, out) || (op.pc.Unexpose? && !out.Done?)
    ensures BrokenInv(AdvanceOp(w, p, id, op, out), id)
  {
    hide Registered, Allotted, RootfsPath, FreshDisk, Primary, AllRules;
  }

  // --- one operation advances ---

  /** A parked clone goes on only when its fan-out has settled, and then it has its own identity. */
  lemma ParkedIsReidentified(w: World, id: Id, op: Op, out: Outcome)
    requires Works(w, id, op) && CanAdvance(w, id, op, out) && FansInv(w) && op.pc.Parked? && id in w.guests
    ensures Reidentified(w.guests[id])
  {
    assert IsClone(op, op.kind.fan);
    assert FanInv(w, op.kind.fan);
  }

  lemma AdvanceLocal(w: World, p: Pools, id: Id, op: Op, out: Outcome)
    requires CoreInv(w.c, p) && LocalInv(w, id) && FansInv(w) && Works(w, id, op) && CanAdvance(w, id, op, out)
    ensures LocalInv(AdvanceOp(w, p, id, op, out), id)
  {
    hide CoreInv, LocalInv, FansInv, Works, CanAdvance, Moved, ColdCommand, ColdNext, UpCommand, UpNext, DownCommand,
      DownNext, ExposeCommand, ExposeNext, Registered, Allotted, Primary, AllRules, Reidentified;
    GoesOnward(w.c, p, id, op, out);
    if Rowless(op.pc) {
      ColdLocal(w, p, id, op, out);
    } else if GoesUp(op.pc) {
      if op.pc.Parked? && id in w.guests {
        ParkedIsReidentified(w, id, op, out);
      }
      UpLocal(w, id, op, out);
    } else if GoesDown(op.pc) {
      DownLocal(w, id, op, out);
    } else {
      ExposeLocal(w, p, id, op, out);
    }
  }

  lemma AdvanceFans(w: World, id: Id, op: Op, out: Outcome, cmd: Command, next: Next)
    requires Works(w, id, op) && Onward(op, next)
    ensures FanFollows(w, Moved(w, id, op, out, cmd, next), id)
  {
    hide Run, Launched, Stops;
  }

  /** A start before its row has its disk prepared exactly until it gives it up or gets its row. */
  lemma AdvanceDisk(w: World, p: Pools, id: Id, op: Op, out: Outcome)
    requires LocalInv(w, id) && DisksInv(w) && Works(w, id, op)
    ensures DiskFollows(w, AdvanceOp(w, p, id, op, out), id)
  {
    hide RootfsPath, LocalInv, DisksInv, NextOf, CommandOf, Run, Launched, Stops, FreshDisk, SmallTables;
    GoesOnward(w.c, p, id, op, out);
    RunIsSmall(w.c, id, CommandOf(w.c, p, id, op, out));
    if Rowless(op.pc) {
      ColdDisk(w, p, id, op, out);
    }
  }

  lemma ColdDisk(w: World, p: Pools, id: Id, op: Op, out: Outcome)
    requires LocalInv(w, id) && DisksInv(w) && Works(w, id, op) && Rowless(op.pc)
    ensures DiskFollows(w, AdvanceOp(w, p, id, op, out), id)
  {
    hide RootfsPath, Create, Launched, Stops, FreshDisk, GuestInv, MachineInv, StartInv, StopInv, FullInv, ExposeInv;
    CreatedPath(w.c.t, p, id, RootfsPath(id), if op.pc.Alloc? then op.pc.expiresAt else None);
  }

  lemma CreatedPath(t: Tables, p: Pools, id: Id, path: string, e: Option<int>)
    ensures var r := Create(t, p, id, path, e); r.Ok? ==> r.value.rootfsPath == path
  {
  }

  lemma AdvanceOrder(w: World, p: Pools, id: Id, op: Op, out: Outcome)
    requires Inv(w, p) && Works(w, id, op) && CanAdvance(w, id, op, out)
    ensures KeepsOrder(w, AdvanceOp(w, p, id, op, out), p, id, CommandOf(w.c, p, id, op, out))
  {
    hide CoreInv, LocalInv, FansInv, ImagesInv, LooseInv, DisksInv, BrokenInv, CommandOf, NextOf, Moved, Works,
      CanAdvance, StepFor, Fits, KnownPath, FanFollows, DiskFollows;
    assert LocalInv(w, id) && BrokenInv(w, id);
    AdvanceFits(w, p, id, op, out);
    MovedOnly(w, id, op, out, CommandOf(w.c, p, id, op, out), NextOf(w.c, p, id, op, out));
    AdvanceLocal(w, p, id, op, out);
    AdvanceBroken(w, p, id, op, out);
    GoesOnward(w.c, p, id, op, out);
    AdvanceFans(w, id, op, out, CommandOf(w.c, p, id, op, out), NextOf(w.c, p, id, op, out));
    AdvanceDisk(w, p, id, op, out);
  }

  lemma AdvanceKeeps(w: World, p: Pools, id: Id, op: Op, out: Outcome)
    requires Inv(w, p) && Works(w, id, op) && CanAdvance(w, id, op, out)
    ensures var v := AdvanceOp(w, p, id, op, out); Inv(v, p) && OthersSame(w.c, v.c, id)
  {
    hide Inv, Works, CanAdvance, KeepsOrder, AdvanceOp, OthersSame;
    AdvanceOrder(w, p, id, op, out);
    OrderKeeps(w, AdvanceOp(w, p, id, op, out), p, id, CommandOf(w.c, p, id, op, out));
  }
}
