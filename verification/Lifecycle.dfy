/** The server's operations as a state machine over single host commands (internal/server, internal/vm,
    cmd/sandboxd/thaw.go). Any number of operations, each on its own sandbox, interleave at every command; the server
    may crash at any point and reconciles what it finds when it starts again. */
module Lifecycle {
  import opened Wrappers
  import opened Pools
  import opened Tables
  import opened History
  import opened Hosts
  import opened Ledger
  import opened Commands

  // --- guests ---

  /** What a guest remembers: the address on eth0, and the last identity generation its thaw agent applied. */
  datatype Memory = Memory(ip: Option<string>, lastGen: string)

  /** The identity document that the host pushes into MMDS for a clone. */
  datatype Identity = Identity(ip: string, gen: string)

  datatype Guest = Guest(memory: Memory, mmds: Option<Identity>)

  /** A firecracker process that is left when its row goes; cutOff tells that its tap device was deleted under it. */
  datatype Leftover = Leftover(guest: Guest, tap: string, cutOff: bool)

  /** Cold-booted and restored sandboxes are driven through the SDK; clones are raw processes, which Pause rejects. */
  datatype Machine = SdkMachine | RawMachine

  // --- operations ---

  datatype Kind =
    | Cold
    | Restored(image: Memory)
    | Clone(fan: Id, image: Memory)
    | Request
    | Recovery

  datatype Pc =
      // handleCreate before its row exists
    | Prepare(expiresAt: Option<int>) | Alloc(expiresAt: Option<int>) | DropFile
      // bringing a sandbox up; a clone parks after Launch until its fan-out finishes phase 1
    | Copy | CreateTap | Attach | Launch | Parked | FindPid | ForwardPre | ForwardOut | Record | Await
      // rollbackPreVM and what precedes it
    | Undo(todo: set<Rule>) | Halt | RollTap | RollDisk | RollRow
      // destroy and reconcile; full says that the extra ports could be read
    | Lookup | Shutdown(todo: set<Rule>, full: bool) | DropRules(todo: set<Rule>, full: bool)
    | DestroyTap(full: bool) | DestroyDisk(full: bool) | DestroyRow(full: bool)
      // handleExposePort
    | Allocate(guestPort: int) | ExposePre(guestPort: int) | ExposeOut(guestPort: int) | Unexpose(guestPort: int)

  datatype Op = Op(kind: Kind, pc: Pc)

  datatype Phase = Staging | BringUp | Settling | Finishing

  datatype Fan = Fan(snapshot: Snapshot, image: Memory, staged: bool, phase: Phase)

  /** ops holds at most one operation for a sandbox: operations on one sandbox do not overlap.
      broken marks exposed ports whose rule could not be added and whose row could not be withdrawn; leftover holds the
      processes that nobody knows of any more. */
  datatype World = World(
    c: Core, ops: map<Id, Op>, fans: map<Id, Fan>, machines: map<Id, Machine>,
    guests: map<Id, Guest>, leftover: map<Id, Leftover>, images: map<Id, Memory>, broken: set<(Id, int)>)

  const INIT := World(EMPTY_CORE, map[], map[], map[], map[], map[], map[], {})

  datatype Event =
    | CreateSandbox(id: Id, expiresAt: Option<int>)
    | RestoreSandbox(id: Id, snapId: Id, expiresAt: Option<int>)
    | DestroySandbox(id: Id)
    | ExposePort(id: Id, guestPort: int)
    | SetTimeout(id: Id, expiresAt: Option<int>)
    | TakeSnapshot(id: Id, snapId: Id, frozenPath: string)
    | DeleteSnapshot(snapId: Id)
    | Fanout(fan: Id, snapId: Id)
    | StageBaked(fan: Id, out: Outcome)
    | SpawnClone(fan: Id, id: Id, expiresAt: Option<int>)
    | UnstageBaked(fan: Id, out: Outcome)
    | Settle(fan: Id)
    | FinishFanout(fan: Id)
    | Advance(id: Id, out: Outcome)
    | RemoveRule(id: Id, rule: Rule, out: Outcome)
    | ThawTick(id: Id, poll: Poll)
    | GuestExit(id: Id)
    | Crash(listed: bool)

  predicate InPhase(w: World, fan: Id, phase: Phase) {
    fan in w.fans && w.fans[fan].phase == phase
  }

  // --- one command of one operation ---

  function PreRule(row: Sandbox): Rule {
    Rule(Prerouting, row.hostPort, row.ip, PRIMARY_PORT)
  }

  function OutRule(row: Sandbox): Rule {
    Rule(Output, row.hostPort, row.ip, PRIMARY_PORT)
  }

  /** The rule of an extra port; the port is 0 where there is none. */
  function ExtraRule(c: Core, id: Id, chain: Chain, guestPort: int): Rule {
    Rule(chain, if (id, guestPort) in c.t.ports then c.t.ports[(id, guestPort)] else 0, RowOf(c, id).ip, guestPort)
  }

  /** The pcs of handleCreate at which the sandbox has no row yet. */
  predicate Rowless(pc: Pc) {
    pc.Prepare? || pc.Alloc? || pc.DropFile?
  }

  predicate Exposing(pc: Pc) {
    pc.ExposePre? || pc.ExposeOut? || pc.Unexpose?
  }

  predicate GoesUp(pc: Pc) {
    pc.Copy? || pc.CreateTap? || pc.Attach? || pc.Launch? || pc.Parked? || pc.FindPid? || pc.ForwardPre? || pc.ForwardOut?
    || pc.Record? || pc.Await?
  }

  predicate GoesDown(pc: Pc) {
    pc.Undo? || pc.Halt? || pc.RollTap? || pc.RollDisk? || pc.RollRow? || pc.Lookup? || pc.Shutdown? || pc.DropRules?
    || pc.DestroyTap? || pc.DestroyDisk? || pc.DestroyRow?
  }

  predicate RowGoes(pc: Pc) {
    pc.RollRow? || pc.DestroyRow?
  }

  /** How an operation goes on after a command. */
  datatype Next = GoOn(pc: Pc) | Ends

  function NextOps(ops: map<Id, Op>, id: Id, next: Next): map<Id, Op> {
    match next
    case GoOn(pc) => if id in ops then ops[id := ops[id].(pc := pc)] else ops
    case Ends => ops - {id}
  }

  /** A cold create before its row; r is what the registry would answer. */
  function ColdCommand(r: Result<Sandbox, Error>, pc: Pc, out: Outcome): Command {
    match pc
    case Prepare(_) => if out.Done? then Prepares else if out.Half? then Litters else Idles
    case Alloc(_) => if r.Ok? && out.Done? then InsertsRow(r.value, true) else Idles
    case _ => Discards(out.Done?)
  }

  function ColdNext(r: Result<Sandbox, Error>, pc: Pc, out: Outcome): Next {
    match pc
    case Prepare(e) => if out.Done? then GoOn(Alloc(e)) else Ends
    case Alloc(_) => GoOn(if r.Ok? && out.Done? then CreateTap else DropFile)
    case _ => Ends
  }

  /** Bringing a sandbox up: disk, tap, guest, port forward, row update, agent. */
  function UpCommand(row: Sandbox, op: Op, out: Outcome): Command {
    match op.pc
    case Copy => if out.Failed? then Idles else LaysDisk
    case CreateTap => if out.Failed? then Idles else AddsTap
    case Attach => if out.Done? then AttachesTap else Idles
    case ForwardPre => if out.Done? then AppendsRule(PreRule(row)) else Idles
    case ForwardOut =>
      if out.Done? then AppendsRule(OutRule(row)) else if op.kind.Clone? then Idles else ForsakesRule(PreRule(row))
    case Record => if out.Done? then RecordsPid else Idles
    case _ => Idles
  }

  function UpNext(op: Op, out: Outcome, primary: set<Rule>): Next {
    var clone := op.kind.Clone?;
    match op.pc
    case Copy => GoOn(if out.Done? then CreateTap else RollTap)
    case CreateTap => GoOn(if !out.Done? then RollTap else if clone then Launch else Attach)
    case Attach => GoOn(if out.Done? then (if clone then ForwardPre else Launch) else if clone then Halt else RollTap)
    case Launch => GoOn(if !out.Done? then RollTap else if clone then Parked else FindPid)
    case Parked => GoOn(FindPid)
    case FindPid => GoOn(if !out.Done? then Halt else if clone then Attach else ForwardPre)
    case ForwardPre => GoOn(if out.Done? then ForwardOut else Halt)
    case ForwardOut => GoOn(if out.Done? then Record else Halt)
    case Record => GoOn(if out.Done? then Await else if clone then Halt else Undo(primary))
    case Await => if out.Done? then Ends else GoOn(Lookup)
    case pc => GoOn(pc)
  }

  /** Taking a sandbox down: the roll-back of a failed start, destroy, and reconcile. */
  function DownCommand(pc: Pc, out: Outcome): Command {
    match pc
    case RollTap => DropsTap(out.Done?)
    case DestroyTap(_) => DropsTap(out.Done?)
    case RollDisk => DropsDisk(out.Done?)
    case DestroyDisk(_) => DropsDisk(out.Done?)
    case RollRow => if out.Done? then DeletesRow else Idles
    case DestroyRow(_) => if out.Done? then DeletesRow else Idles
    case _ => Idles
  }

  function DownNext(op: Op, out: Outcome, primary: set<Rule>, all: set<Rule>): Next {
    match op.pc
    case Undo(_) => GoOn(Halt)
    case Halt => GoOn(if op.kind.Clone? then Lookup else RollTap)
    case RollTap => GoOn(RollDisk)
    case RollDisk => GoOn(RollRow)
    case Lookup => if out.Done? then GoOn(Shutdown(all, true)) else if out.Half? then GoOn(Shutdown(primary, false)) else Ends
    case Shutdown(todo, full) => GoOn(DropRules(todo, full))
    case DropRules(_, full) => GoOn(DestroyTap(full))
    case DestroyTap(full) => GoOn(DestroyDisk(full))
    case DestroyDisk(full) => GoOn(DestroyRow(full))
    case _ => Ends
  }

  /** Exposing a port; r is what the registry would answer. */
  function ExposeCommand(c: Core, id: Id, r: Result<int, Error>, pc: Pc, out: Outcome): Command {
    match pc
    case Allocate(gp) => if r.Ok? && out.Done? then InsertsPort(gp, r.value) else Idles
    case ExposePre(gp) => if out.Done? then AppendsRule(ExtraRule(c, id, Prerouting, gp)) else Idles
    case ExposeOut(gp) =>
      if out.Done? then AppendsRule(ExtraRule(c, id, Output, gp)) else ForsakesRule(ExtraRule(c, id, Prerouting, gp))
    case Unexpose(gp) => if out.Done? then RemovesPort(gp) else Idles
    case _ => Idles
  }

  function ExposeNext(r: Result<int, Error>, pc: Pc, out: Outcome): Next {
    match pc
    case Allocate(gp) => if r.Ok? && out.Done? then GoOn(ExposePre(gp)) else Ends
    case ExposePre(gp) => GoOn(if out.Done? then ExposeOut(gp) else Unexpose(gp))
    case ExposeOut(gp) => if out.Done? then Ends else GoOn(Unexpose(gp))
    case _ => Ends
  }

  function MachineOf(op: Op): Machine {
    if op.kind.Clone? then RawMachine else SdkMachine
  }

  /** The guest that Launch starts. A clone wakes up with the memory of its source and finds its own identity in MMDS. */
  function Launched(kind: Kind, row: Sandbox, id: Id): Guest {
    match kind
    case Restored(image) => Guest(image, None)
    case Clone(_, image) => Guest(image, Some(Identity(row.ip, id)))
    case _ => Guest(Memory(Some(row.ip), ""), None)
  }

  predicate Deletes(pc: Pc, out: Outcome) {
    RowGoes(pc) && out.Done?
  }

  /** Which guests a step stops: the one that a start gives up, and at a shutdown the one whose machine the server holds,
      or, in reconcile, whose process the row names. The guest of a deleted row is not stopped, but forgotten. */
  predicate Stops(w: World, id: Id, op: Op) {
    op.pc.Halt? || (op.pc.Shutdown? && (id in w.machines || (op.kind.Recovery? && RowOf(w.c, id).pid != 0)))
  }

  /** One step of an operation: a command, and what it does to machine and guest. */
  function Moved(w: World, id: Id, op: Op, out: Outcome, cmd: Command, next: Next): World {
    var row, gone := RowOf(w.c, id), Deletes(op.pc, out);
    World(Run(w.c, id, cmd), NextOps(w.ops, id, next), w.fans,
          if op.pc.Record? && out.Done? then w.machines[id := MachineOf(op)]
          else if op.pc.Shutdown? then w.machines - {id} else w.machines,
          if op.pc.Launch? && out.Done? then w.guests[id := Launched(op.kind, row, id)]
          else if gone || Stops(w, id, op) then w.guests - {id} else w.guests,
          if gone && id in w.guests then w.leftover[id := Leftover(w.guests[id], row.tap, row.tap !in w.c.host.taps)]
          else w.leftover,
          w.images,
          if gone then set k | k in w.broken && k.0 != id
          else if op.pc.Unexpose? && !out.Done? then w.broken + {(id, op.pc.guestPort)} else w.broken)
  }

  function Primary(c: Core, id: Id): set<Rule> {
    if id in c.t.sandboxes then PrimaryRules(c.t, id) else {}
  }

  function AllRules(c: Core, id: Id): set<Rule> {
    if id in c.t.sandboxes then RulesOf(c.t, id) else {}
  }

  function Registered(c: Core, p: Pools, id: Id, pc: Pc): Result<Sandbox, Error> {
    Create(c.t, p, id, RootfsPath(id), if pc.Alloc? then pc.expiresAt else None)
  }

  function Allotted(c: Core, p: Pools, id: Id, pc: Pc): Result<int, Error> {
    AddPort(c.t, p, id, if pc.Allocate? then pc.guestPort else 0)
  }

  function ColdStep(w: World, p: Pools, id: Id, op: Op, out: Outcome): World {
    var r := Registered(w.c, p, id, op.pc);
    Moved(w, id, op, out, ColdCommand(r, op.pc, out), ColdNext(r, op.pc, out))
  }

  function UpStep(w: World, id: Id, op: Op, out: Outcome): World {
    Moved(w, id, op, out, UpCommand(RowOf(w.c, id), op, out), UpNext(op, out, Primary(w.c, id)))
  }

  function DownStep(w: World, id: Id, op: Op, out: Outcome): World {
    Moved(w, id, op, out, DownCommand(op.pc, out), DownNext(op, out, Primary(w.c, id), AllRules(w.c, id)))
  }

  function ExposeStep(w: World, p: Pools, id: Id, op: Op, out: Outcome): World {
    var r := Allotted(w.c, p, id, op.pc);
    Moved(w, id, op, out, ExposeCommand(w.c, id, r, op.pc, out), ExposeNext(r, op.pc, out))
  }

  function CommandOf(c: Core, p: Pools, id: Id, op: Op, out: Outcome): Command {
    if Rowless(op.pc) then ColdCommand(Registered(c, p, id, op.pc), op.pc, out)
    else if GoesUp(op.pc) then UpCommand(RowOf(c, id), op, out)
    else if GoesDown(op.pc) then DownCommand(op.pc, out)
    else ExposeCommand(c, id, Allotted(c, p, id, op.pc), op.pc, out)
  }

  function NextOf(c: Core, p: Pools, id: Id, op: Op, out: Outcome): Next {
    if Rowless(op.pc) then ColdNext(Registered(c, p, id, op.pc), op.pc, out)
    else if GoesUp(op.pc) then UpNext(op, out, Primary(c, id))
    else if GoesDown(op.pc) then DownNext(op, out, Primary(c, id), AllRules(c, id))
    else ExposeNext(Allotted(c, p, id, op.pc), op.pc, out)
  }

  function AdvanceOp(w: World, p: Pools, id: Id, op: Op, out: Outcome): World {
    Moved(w, id, op, out, CommandOf(w.c, p, id, op, out), NextOf(w.c, p, id, op, out))
  }

  /** op is the operation at work on sandbox id. */
  predicate Works(w: World, id: Id, op: Op) {
    id in w.ops && w.ops[id] == op
  }

  /** When a command can end that way. A device that exists is refused; a parked clone waits for its fan-out; all
      rules are dealt with one by one; and reconcile works on rows that it has read. */
  predicate CanAdvance(w: World, id: Id, op: Op, out: Outcome) {
    if Rowless(op.pc) then true else
    id in w.c.t.sandboxes &&
    match op.pc
    case CreateTap => out.Failed? || RowOf(w.c, id).tap !in w.c.host.taps
    case Parked => out.Done? && op.kind.Clone? && op.kind.fan in w.fans && w.fans[op.kind.fan].phase.Finishing?
    case Undo(todo) => todo == {}
    case DropRules(todo, _) => todo == {}
    case Lookup => !op.kind.Recovery? || !out.Failed?
    case ExposePre(gp) => (id, gp) in w.c.t.ports
    case ExposeOut(gp) => (id, gp) in w.c.t.ports
    case Unexpose(gp) => (id, gp) in w.c.t.ports
    case _ => true
  }

  // --- the thaw agent ---

  /** How the agent's commands end: all succeed; one fails before the old address is flushed; one fails after that; the
      new address is set but its route is not. */
  datatype Poll = Applied | Kept | Flushed | Unrouted

  /** One poll of MMDS by the agent: a new generation is applied, and remembered only when every step succeeded. */
  function Thaw(g: Guest, poll: Poll): Guest {
    if g.mmds.None? || g.mmds.value.gen == "" || g.mmds.value.gen == g.memory.lastGen then g else
    match poll
    case Applied => g.(memory := Memory(Some(g.mmds.value.ip), g.mmds.value.gen))
    case Kept => g
    case Flushed => g.(memory := g.memory.(ip := None))
    case Unrouted => g.(memory := g.memory.(ip := Some(g.mmds.value.ip)))
  }

  predicate Reidentified(g: Guest) {
    g.mmds.Some? ==> g.memory.lastGen == g.mmds.value.gen
  }

  // --- all events ---

  predicate IsClone(op: Op, fan: Id) {
    op.kind.Clone? && op.kind.fan == fan
  }

  predicate Serving(w: World) {
    forall id | id in w.ops :: !w.ops[id].kind.Recovery?
  }

  /** When an event can happen. Three conditions are assumptions about the surroundings, not guards of the code:
      UUIDs are fresh; no restore begins at a path where a fan-out has staged its disk, and no fan-out stages a disk at
      a path where a restore is about to copy its own or another fan-out has staged it (RestoreSandbox, StageBaked);
      and the settle time suffices for every resumed clone (Settle). */
  ghost predicate Enabled(w: World, ev: Event) {
    match ev
    case CreateSandbox(id, _) => Serving(w) && Fresh(w, id)
    case RestoreSandbox(id, snapId, _) =>
      Serving(w) && id !in w.ops && id !in w.c.t.sandboxes && id !in w.leftover && snapId in w.c.t.snapshots && snapId in w.images
      && NoneStagedAt(w, w.c.t.snapshots[snapId].bakedPath)
    case DestroySandbox(id) => Serving(w) && id in w.c.t.sandboxes && id !in w.ops
    case ExposePort(id, gp) =>
      Serving(w) && id in w.c.t.sandboxes && id !in w.ops && 1 <= gp <= 65535 && gp != PRIMARY_PORT && (id, gp) !in w.c.t.ports
    case SetTimeout(id, _) => id in w.c.t.sandboxes && id !in w.ops
    case TakeSnapshot(id, snapId, _) =>
      id in w.machines && w.machines[id].SdkMachine? && id in w.guests && id !in w.ops && id in w.c.t.sandboxes
      && snapId !in w.c.t.snapshots
    case DeleteSnapshot(_) => true
    case Fanout(fan, snapId) => Serving(w) && fan !in w.fans && snapId in w.c.t.snapshots && snapId in w.images
    case StageBaked(fan, _) => CanStage(w, fan)
    case SpawnClone(fan, id, _) => fan in w.fans && w.fans[fan].phase.BringUp? && Fresh(w, id)
    case UnstageBaked(fan, _) => CanUnstage(w, fan)
    case Settle(fan) => CanSettle(w, fan)
    case FinishFanout(fan) =>
      fan in w.fans && w.fans[fan].phase.Finishing? && forall id | id in w.ops :: !IsClone(w.ops[id], fan)
    case Advance(id, out) => id in w.ops && CanAdvance(w, id, w.ops[id], out)
    case RemoveRule(id, r, _) => id in w.ops && CanRemove(w.ops[id].pc, r)
    case ThawTick(id, _) => id in w.guests || id in w.leftover
    case GuestExit(id) => id in w.guests || id in w.leftover
    case Crash(_) => true
  }

  /** Where the fan-out needs its disk. */
  function BakedPath(w: World, fan: Id): string {
    if fan in w.fans then w.fans[fan].snapshot.bakedPath else ""
  }

  ghost predicate NoneStagedAt(w: World, path: string) {
    forall fan | fan in w.fans && w.fans[fan].staged :: w.fans[fan].snapshot.bakedPath != path
  }

  ghost predicate NoneCopiesTo(w: World, path: string) {
    forall id | id in w.ops && w.ops[id].pc.Copy? && id in w.c.t.sandboxes :: w.c.t.sandboxes[id].rootfsPath != path
  }

  ghost predicate CanStage(w: World, fan: Id) {
    && fan in w.fans && w.fans[fan].phase.Staging?
    && (BakedPath(w, fan) in w.c.host.files || (NoneStagedAt(w, BakedPath(w, fan)) && NoneCopiesTo(w, BakedPath(w, fan))))
  }

  /** Phase 1 ends when every clone is parked. */
  ghost predicate CanUnstage(w: World, fan: Id) {
    fan in w.fans && w.fans[fan].phase.BringUp? && forall id | id in w.ops && IsClone(w.ops[id], fan) :: w.ops[id].pc.Parked?
  }

  ghost predicate CanSettle(w: World, fan: Id) {
    && fan in w.fans && w.fans[fan].phase.Settling?
    && forall id | id in w.ops && IsClone(w.ops[id], fan) && id in w.guests :: Reidentified(w.guests[id])
  }

  ghost predicate Fresh(w: World, id: Id) {
    id != "" && id !in w.ops && id !in w.c.t.sandboxes && id !in w.leftover && FreshDisk(w.c.seen, id)
  }

  function StageStep(w: World, fan: Id, out: Outcome): World {
    if fan !in w.fans then w else
    var f := w.fans[fan];
    var path := BakedPath(w, fan);
    if path in w.c.host.files then w.(fans := w.fans[fan := f.(phase := BringUp)])
    else if out.Done? then w.(c := LayLoose(w.c, path), fans := w.fans[fan := f.(phase := BringUp, staged := true)])
    else if out.Half? then w.(c := Litter(w.c, path), fans := w.fans - {fan})
    else w.(fans := w.fans - {fan})
  }

  function UnstageStep(w: World, fan: Id, out: Outcome): World {
    if fan !in w.fans then w else
    var f := w.fans[fan];
    w.(c := if f.staged then DropLoose(w.c, BakedPath(w, fan), out.Done?) else w.c,
    fans := w.fans[fan := f.(phase := Settling, staged := false)])
  }

  /** A new row and its operation, if the registry accepts the row. */
  function RowStep(w: World, id: Id, r: Result<Sandbox, Error>, op: Op): World {
    if r.Ok? then w.(c := Run(w.c, id, InsertsRow(r.value, false)), ops := w.ops[id := op]) else w
  }

  function RestoreStep(w: World, p: Pools, id: Id, snapId: Id, e: Option<int>): World {
    if snapId in w.c.t.snapshots && snapId in w.images
    then RowStep(w, id, History.Restored(w.c.t, p, id, w.c.t.snapshots[snapId], e), Op(Restored(w.images[snapId]), Copy))
    else w
  }

  function SpawnStep(w: World, p: Pools, fan: Id, id: Id, e: Option<int>): World {
    if fan in w.fans then RowStep(w, id, Create(w.c.t, p, id, RootfsPath(id), e), Op(Clone(fan, w.fans[fan].image), Copy)) else w
  }

  function SnapshotStep(w: World, id: Id, snapId: Id, frozenPath: string): World {
    if id !in w.guests then w else
    var row := RowOf(w.c, id);
    var s := Snapshot(id, row.tap, row.ip, frozenPath, row.rootfsPath);
    w.(c := w.c.(t := WithSnapshot(w.c.t, snapId, s)), images := w.images[snapId := w.guests[id].memory])
  }

  predicate CanRemove(pc: Pc, r: Rule) {
    (pc.Undo? || pc.DropRules?) && r in TodoOf(pc)
  }

  /** The rules that the operation has still to remove. */
  function TodoOf(pc: Pc): set<Rule> {
    match pc
    case Undo(todo) => todo
    case Shutdown(todo, _) => todo
    case DropRules(todo, _) => todo
    case _ => {}
  }

  function LessTodo(pc: Pc, r: Rule): Pc {
    match pc
    case Undo(todo) => Undo(todo - {r})
    case DropRules(todo, full) => DropRules(todo - {r}, full)
    case _ => pc
  }

  function RemoveRuleStep(w: World, id: Id, op: Op, r: Rule, out: Outcome): World {
    w.(c := Run(w.c, id, DropsRule(r, out.Done?)), ops := NextOps(w.ops, id, GoOn(LessTodo(op.pc, r))))
  }

  function ThawStep(w: World, id: Id, poll: Poll): World {
    if id in w.guests then w.(guests := w.guests[id := Thaw(w.guests[id], poll)])
    else if id in w.leftover then w.(leftover := w.leftover[id := w.leftover[id].(guest := Thaw(w.leftover[id].guest, poll))])
    else w
  }

  function ExitStep(w: World, id: Id): World {
    w.(guests := w.guests - {id}, leftover := w.leftover - {id})
  }

  /** After a crash every row that is left is stale: reconcile takes each of them down. */
  function CrashStep(w: World): World {
    World(CutLoose(w.c), map id | id in w.c.t.sandboxes :: Op(Recovery, Lookup),
          map[], map[], w.guests, w.leftover, w.images, w.broken)
  }

  /** Unless the rows cannot be listed: the server then serves, and deals with none of them. */
  function RestartStep(w: World, listed: bool): World {
    if listed then CrashStep(w) else CrashStep(w).(ops := map[])
  }

  ghost function Apply(w: World, p: Pools, ev: Event): World {
    if !Enabled(w, ev) then w else
    match ev
    case CreateSandbox(id, e) => w.(ops := w.ops[id := Op(Cold, Prepare(e))])
    case RestoreSandbox(id, snapId, e) => RestoreStep(w, p, id, snapId, e)
    case DestroySandbox(id) => w.(ops := w.ops[id := Op(Request, Lookup)])
    case ExposePort(id, gp) => w.(ops := w.ops[id := Op(Request, Allocate(gp))])
    case SetTimeout(id, e) => w.(c := Run(w.c, id, SetsDeadline(e)))
    case TakeSnapshot(id, snapId, frozen) => SnapshotStep(w, id, snapId, frozen)
    case DeleteSnapshot(snapId) => w.(c := w.c.(t := WithoutSnapshot(w.c.t, snapId)))
    case Fanout(fan, snapId) => w.(fans := w.fans[fan := Fan(w.c.t.snapshots[snapId], w.images[snapId], false, Staging)])
    case StageBaked(fan, out) => StageStep(w, fan, out)
    case SpawnClone(fan, id, e) => SpawnStep(w, p, fan, id, e)
    case UnstageBaked(fan, out) => UnstageStep(w, fan, out)
    case Settle(fan) => w.(fans := w.fans[fan := w.fans[fan].(phase := Finishing)])
    case FinishFanout(fan) => w.(fans := w.fans - {fan})
    case Advance(id, out) => AdvanceOp(w, p, id, w.ops[id], out)
    case RemoveRule(id, r, out) => RemoveRuleStep(w, id, w.ops[id], r, out)
    case ThawTick(id, poll) => ThawStep(w, id, poll)
    case GuestExit(id) => ExitStep(w, id)
    case Crash(listed) => RestartStep(w, listed)
  }
}
