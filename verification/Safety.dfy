/** What every reachable state of the server's state machine satisfies. */
module Safety {
  import opened Wrappers
  import opened Pools
  import opened Tables
  import opened History
  import opened Hosts
  import opened Ledger
  import opened Commands
  import opened Lifecycle

  // --- the invariant of one sandbox ---

  predicate Bridged(c: Core, id: Id) {
    var tap := RowOf(c, id).tap;
    tap in c.host.taps && c.host.taps[tap]
  }

  /** No rule of this sandbox is in force. */
  ghost predicate NoRules(c: Core, id: Id) {
    forall r | Owns(c.t, id, r) :: r !in c.led.rules
  }

  /** Every rule of this sandbox that is in force is one of rs, and every one of rs is its own. */
  ghost predicate RulesWithin(c: Core, id: Id, rs: set<Rule>) {
    && (forall r | Owns(c.t, id, r) && r in c.led.rules :: r in rs)
    && (forall r | r in rs :: Owns(c.t, id, r))
  }

  ghost predicate NoPorts(c: Core, id: Id) {
    forall gp :: (id, gp) !in c.t.ports
  }

  /** Tap, disk and network are in place. */
  ghost predicate Wired(c: Core, id: Id) {
    id in c.t.sandboxes && id in c.led.taps && id in c.led.files && Bridged(c, id)
  }

  /** A complete sandbox: wired, and every rule that its rows call for is in force, but for the guest port except
      and for the ports marked broken. */
  ghost predicate Complete(w: World, id: Id, except: Option<int>) {
    && Wired(w.c, id)
    && forall r | Owns(w.c.t, id, r) && Some(r.guestPort) != except && (id, r.guestPort) !in w.broken :: r in w.c.led.rules
  }

  predicate Tapless(w: World, id: Id) {
    id !in w.guests && id !in w.machines && id !in w.c.led.taps
  }

  ghost predicate StartInv(w: World, id: Id, op: Op) {
    var c, row, clone := w.c, RowOf(w.c, id), op.kind.Clone?;
    && (op.kind.Cold? || op.kind.Restored? || clone)
    && (op.kind.Restored? ==> op.kind.image == Memory(Some(row.ip), ""))
    && (clone ==> id != "" && op.kind.image.lastGen == "")
    && (!clone && id in w.guests ==> w.guests[id].mmds.None?)
    && NoPorts(c, id)
    && (op.pc.Await? <==> id in w.machines)
    && match op.pc
       case Copy => Tapless(w, id) && id !in c.led.files && NoRules(c, id)
       case CreateTap => Tapless(w, id) && id in c.led.files && NoRules(c, id)
       case Attach =>
         id in c.led.taps && id in c.led.files && NoRules(c, id) && !Bridged(c, id)
         && (if clone then id in w.guests ==> Reidentified(w.guests[id]) else id !in w.guests)
       case Launch => id in c.led.taps && id in c.led.files && NoRules(c, id) && id !in w.guests && (Bridged(c, id) <==> !clone)
       case Parked => clone && id in c.led.taps && id in c.led.files && NoRules(c, id) && !Bridged(c, id)
       case FindPid =>
         id in c.led.taps && id in c.led.files && NoRules(c, id) && (Bridged(c, id) <==> !clone)
         && (clone && id in w.guests ==> Reidentified(w.guests[id]))
       case ForwardPre => Wired(c, id) && NoRules(c, id)
       case ForwardOut => Wired(c, id) && RulesWithin(c, id, {PreRule(row)}) && PreRule(row) in c.led.rules
       case Record => Complete(w, id, None)
       case Await => Complete(w, id, None)
       case _ => false
  }

  ghost predicate StopInv(w: World, id: Id, op: Op) {
    var c := w.c;
    match op.pc
    case Undo(todo) => !op.kind.Clone? && id !in w.machines && RulesWithin(c, id, todo)
    case Halt => id !in w.machines && (!op.kind.Clone? ==> NoRules(c, id))
    case RollTap => id !in w.guests && id !in w.machines && NoRules(c, id)
    case RollDisk => Tapless(w, id) && NoRules(c, id)
    case RollRow => Tapless(w, id) && id !in c.led.files && NoRules(c, id)
    case Lookup => id in w.machines ==> Complete(w, id, None)
    case Shutdown(todo, full) => forall r | r in todo :: Owns(c.t, id, r)
    case DropRules(todo, full) => id !in w.machines && forall r | r in todo :: Owns(c.t, id, r)
    case DestroyTap(full) => id !in w.machines
    case DestroyDisk(full) => id !in w.machines && id !in c.led.taps
    case DestroyRow(full) => id !in w.machines && id !in c.led.taps && id !in c.led.files
    case _ => true
  }

  /** With the ports read, nothing that the rows call for is left out. */
  ghost predicate FullInv(w: World, id: Id, op: Op) {
    match op.pc
    case Shutdown(todo, full) => full ==> RulesWithin(w.c, id, todo)
    case DropRules(todo, full) => full ==> RulesWithin(w.c, id, todo)
    case DestroyTap(full) => full ==> NoRules(w.c, id)
    case DestroyDisk(full) => full ==> NoRules(w.c, id)
    case DestroyRow(full) => full ==> NoRules(w.c, id)
    case _ => true
  }

  ghost predicate ExposeInv(w: World, id: Id, op: Op) {
    var c := w.c;
    match op.pc
    case Allocate(gp) => gp != PRIMARY_PORT && (id, gp) !in c.t.ports && (id in w.machines ==> Complete(w, id, None))
    case ExposePre(gp) =>
      gp != PRIMARY_PORT && (id, gp) in c.t.ports && NoRulesAt(c, id, gp) && (id in w.machines ==> Complete(w, id, Some(gp)))
    case ExposeOut(gp) =>
      gp != PRIMARY_PORT && (id, gp) in c.t.ports && ExtraRule(c, id, Output, gp) !in c.led.rules
      && ExtraRule(c, id, Prerouting, gp) in c.led.rules && (id in w.machines ==> Complete(w, id, Some(gp)))
    case Unexpose(gp) =>
      gp != PRIMARY_PORT && (id, gp) in c.t.ports && NoRulesAt(c, id, gp) && (id in w.machines ==> Complete(w, id, Some(gp)))
    case _ => true
  }

  ghost predicate NoRulesAt(c: Core, id: Id, gp: int) {
    forall r | Owns(c.t, id, r) && r.guestPort == gp :: r !in c.led.rules
  }

  ghost predicate RowlessInv(w: World, id: Id, op: Op) {
    && op.kind.Cold? && id !in w.c.t.sandboxes && FreshDisk(w.c.seen, id)
    && (op.pc.Prepare? <==> RootfsPath(id) !in w.c.loose)
  }

  ghost predicate OpInv(w: World, id: Id, op: Op) {
    if Rowless(op.pc) then RowlessInv(w, id, op)
    else
      && id in w.c.t.sandboxes
      && (GoesUp(op.pc) ==> StartInv(w, id, op))
      && (GoesDown(op.pc) ==> StopInv(w, id, op) && FullInv(w, id, op))
      && (!GoesUp(op.pc) && !GoesDown(op.pc) ==> op.kind.Request? && ExposeInv(w, id, op))
  }

  /** A guest behind a bridged tap has the address of its row, and its thaw agent has nothing left to change. */
  ghost predicate GuestInv(w: World, id: Id, g: Guest) {
    && id in w.c.t.sandboxes
    && (var ip := RowOf(w.c, id).ip;
        && (g.mmds.None? ==> g.memory == Memory(Some(ip), ""))
        && (g.mmds.Some? ==> g.mmds.value == Identity(ip, id) && id != "")
        && (g.mmds.Some? && Reidentified(g) ==> g.memory.ip == Some(ip))
        && (Bridged(w.c, id) ==> Reidentified(g)))
  }

  ghost predicate MachineInv(w: World, id: Id) {
    id in w.machines ==>
      && id in w.c.t.sandboxes
      && (id !in w.ops ==> Complete(w, id, None))
      && (w.machines[id].SdkMachine? && id in w.guests ==> w.guests[id].mmds.None?)
  }

  /** All that concerns one sandbox. */
  ghost predicate LocalInv(w: World, id: Id) {
    && (id in w.ops ==> OpInv(w, id, w.ops[id]))
    && (id in w.guests ==> GuestInv(w, id, w.guests[id]))
    && MachineInv(w, id)
  }

  // --- the invariant of the whole ---

  /** Past phase 1 no clone of the fan-out is still being brought up. */
  predicate Late(pc: Pc) {
    !pc.Copy? && !pc.CreateTap? && !pc.Launch? && !Rowless(pc)
  }

  ghost predicate FanInv(w: World, fan: Id) {
    fan in w.fans ==>
      var f := w.fans[fan];
      && BakedDisk(f.snapshot) in w.c.seen && f.image.lastGen == ""
      && (f.staged ==> f.phase.BringUp? && f.snapshot.bakedPath in w.c.loose)
      && (f.phase.Settling? || f.phase.Finishing? ==> forall id | id in w.ops && IsClone(w.ops[id], fan) :: Late(w.ops[id].pc))
      && (f.phase.Finishing? ==> forall id | id in w.ops && IsClone(w.ops[id], fan) && w.ops[id].pc.Parked?
                                             && id in w.guests :: Reidentified(w.guests[id]))
  }

  ghost predicate FansInv(w: World) {
    && (forall fan :: FanInv(w, fan))
    && (forall e, f | e in w.fans && f in w.fans && e != f && w.fans[e].staged && w.fans[f].staged ::
          w.fans[e].snapshot.bakedPath != w.fans[f].snapshot.bakedPath)
  }

  ghost predicate ImagesInv(w: World) {
    forall s | s in w.c.t.snapshots :: s in w.images && w.images[s] == Memory(Some(w.c.t.snapshots[s].ip), "")
  }

  /** The only files without a row are disks prepared ahead of their row and disks staged for a fan-out. */
  ghost predicate LooseInv(w: World) {
    forall f | f in w.c.loose ::
      || (exists id :: id in w.ops && Rowless(w.ops[id].pc) && f == RootfsPath(id))
      || (exists fan :: fan in w.fans && w.fans[fan].staged && f == w.fans[fan].snapshot.bakedPath)
  }

  /** A broken port has its row and no rule, and nobody is exposing it. */
  ghost predicate BrokenInv(w: World, id: Id) {
    forall gp | (id, gp) in w.broken ::
      && id in w.c.t.sandboxes && (id, gp) in w.c.t.ports && gp != PRIMARY_PORT && NoRulesAt(w.c, id, gp)
      && !(id in w.ops && Exposing(w.ops[id].pc) && w.ops[id].pc.guestPort == gp)
  }

  /** A prepared disk is there, and nothing is staged where a row's disk is about to be copied. */
  ghost predicate DisksInv(w: World) {
    && (forall id | id in w.ops && Rowless(w.ops[id].pc) && !w.ops[id].pc.Prepare? :: RootfsPath(id) in w.c.host.files)
    && (forall id | id in w.ops && w.ops[id].pc.Copy? && id in w.c.t.sandboxes :: w.c.t.sandboxes[id].rootfsPath !in w.c.loose)
  }

  ghost predicate Inv(w: World, p: Pools) {
    && CoreInv(w.c, p) && (forall id :: LocalInv(w, id)) && FansInv(w) && ImagesInv(w) && LooseInv(w) && DisksInv(w)
    && forall id :: BrokenInv(w, id)
  }

  lemma InitInv(p: Pools)
    ensures Inv(INIT, p)
  {
    assert CoreInv(EMPTY_CORE, p) by {
      InitCore(p);
    }
    hide CoreInv, OpInv, GuestInv, MachineInv, FanInv;
  }

  lemma InitCore(p: Pools)
    ensures CoreInv(EMPTY_CORE, p)
  {
    hide IdentityInPools, PortPool;
  }

  // --- a step of one sandbox leaves the others alone ---

  /** Nothing that LocalInv(w, j) depends on differs. */
  ghost predicate Framed(w: World, v: World, j: Id) {
    && (j in w.c.t.sandboxes ==> SameButDisk(w.c, v.c, j))
    && (j !in w.c.t.sandboxes ==> j !in v.c.t.sandboxes)
    && (j in w.ops <==> j in v.ops) && (j in w.ops ==> w.ops[j] == v.ops[j])
    && (j in w.guests <==> j in v.guests) && (j in w.guests ==> w.guests[j] == v.guests[j])
    && (j in w.machines <==> j in v.machines) && (j in w.machines ==> w.machines[j] == v.machines[j])
    && (forall gp :: (j, gp) in w.broken <==> (j, gp) in v.broken)
    && (FreshDisk(w.c.seen, j) && j in w.ops ==> FreshDisk(v.c.seen, j)
                                                 && (RootfsPath(j) in w.c.loose <==> RootfsPath(j) in v.c.loose))
  }

  lemma SameOwns(c: Core, d: Core, j: Id)
    requires j in c.t.sandboxes && SameButDisk(c, d, j)
    ensures forall r :: Owns(c.t, j, r) <==> Owns(d.t, j, r)
    ensures forall r | Owns(c.t, j, r) :: r in c.led.rules <==> r in d.led.rules
    ensures Bridged(c, j) <==> Bridged(d, j)
    ensures NoPorts(c, j) <==> NoPorts(d, j)
  {
  }

  lemma FramedLocal(w: World, v: World, j: Id)
    requires LocalInv(w, j) && Framed(w, v, j)
    ensures LocalInv(v, j)
  {
    if j in w.c.t.sandboxes {
      SameOwns(w.c, v.c, j);
      hide SameButDisk, Owns, Bridged, NoPorts;
    }
  }

  lemma FramedBroken(w: World, v: World, j: Id)
    requires BrokenInv(w, j) && Framed(w, v, j)
    ensures BrokenInv(v, j)
  {
    if j in w.c.t.sandboxes {
      SameOwns(w.c, v.c, j);
      hide Owns;
    }
  }
}
