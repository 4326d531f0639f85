/** What the invariant means to the operator of the server: where every host object belongs, which names are unique,
    what a live sandbox has, and who is on the bridge. */
module Guarantees {
  import opened Wrappers
  import opened Pools
  import opened Tables
  import opened History
  import opened Hosts
  import opened Ledger
  import opened Commands
  import opened Lifecycle
  import opened Safety
  import opened Events
  import opened Runs
  import opened Processes

  // --- every host object is accounted for ---

  /** The disks that operations in progress have laid without a row: a cold create before its row, and a frozen disk
      staged for a fan-out. A restored or cloned sandbox never has one. */
  ghost predicate Underway(w: World, path: string) {
    || (exists id :: id in w.ops && w.ops[id].kind.Cold? && id !in w.c.t.sandboxes && path == RootfsPath(id))
    || (exists fan :: fan in w.fans && w.fans[fan].staged && path == w.fans[fan].snapshot.bakedPath)
  }

  /** Each tap of the host is the tap of a row; each rule is one that a row calls for, and there once; each file is the
      disk of a row, or an operation or fan-out under way has laid it. All but the strays, and the files that a crash has
      cut off. */
  ghost predicate Accounted(w: World) {
    && (forall tap | tap in w.c.host.taps ::
          tap in w.c.stray.taps || exists id :: id in w.c.t.sandboxes && w.c.t.sandboxes[id].tap == tap)
    && (forall r :: w.c.host.rules[r] <= w.c.stray.rules[r] + 1)
    && (forall r | w.c.host.rules[r] > w.c.stray.rules[r] :: exists id :: Owns(w.c.t, id, r))
    && (forall f | f in w.c.host.files ::
          f in w.c.stray.files || f in w.c.stray.cut || Underway(w, f)
          || exists id :: id in w.c.t.sandboxes && w.c.t.sandboxes[id].rootfsPath == f)
  }

  /** At every point of every run each tap and each copy of a rule on the host belongs to a registry row, and each
      disk to a row or to an operation in progress; all but the strays, which only failed commands leave. */
  lemma EverythingAccounted(p: Pools, es: seq<Event>)
    requires EnabledRun(INIT, p, es)
    ensures Accounted(Exec(INIT, p, es))
  {
    hide Inv, CoreInv, EnabledRun, Exec, Accounted, Underway;
    ReachableInv(p, es);
    var w := Exec(INIT, p, es);
    CoreOf(w, p);
    LooseIsUnderway(w, p);
    IsAccounted(w, p);
  }

  lemma IsAccounted(w: World, p: Pools)
    requires CoreInv(w.c, p) && forall f | f in w.c.loose :: Underway(w, f)
    ensures Accounted(w)
  {
    hide BookInv, Underway, Owns;
  }

  lemma LooseIsUnderway(w: World, p: Pools)
    requires Inv(w, p)
    ensures forall f | f in w.c.loose :: Underway(w, f)
  {
    hide CoreInv, FansInv, ImagesInv, RootfsPath;
    forall f | f in w.c.loose ensures Underway(w, f) {
      if id :| id in w.ops && Rowless(w.ops[id].pc) && f == RootfsPath(id) {
        assert LocalInv(w, id);
      }
    }
  }

  // --- where strays come from ---

  datatype Object = Tap(tap: string) | Dnats(rules: set<Rule>) | File(path: string)

  /** What a command that ends this way leaves to nobody: a rule of a port forward half made, a copy half made, an object
      whose deletion failed, or the rules of ports that could not be read when the row was deleted. A crash is judged apart. */
  function LeftBy(w: World, ev: Event): Option<Object> {
    match ev
    case Advance(id, out) =>
      if id !in w.ops then None
      else if out.Done? then LeftByRow(w.c, id, w.ops[id])
      else LeftByAdvance(w.c, id, w.ops[id], out)
    case RemoveRule(_, r, out) => if !out.Done? then IfInForce(w.c, r) else None
    case StageBaked(fan, out) => if fan in w.fans && out.Half? then IfAbsent(w.c, BakedPath(w, fan)) else None
    case UnstageBaked(fan, out) =>
      if fan in w.fans && w.fans[fan].staged && !out.Done? then IfPresent(w.c, BakedPath(w, fan)) else None
    case _ => None
  }

  function IfPresent(c: Core, path: string): Option<Object> {
    if path in c.host.files then Some(File(path)) else None
  }

  function IfAbsent(c: Core, path: string): Option<Object> {
    if path in c.host.files then None else Some(File(path))
  }

  function IfInForce(c: Core, r: Rule): Option<Object> {
    if r in c.led.rules then Some(Dnats({r})) else None
  }

  function IfAttached(c: Core, tap: string): Option<Object> {
    if tap in c.host.taps then Some(Tap(tap)) else None
  }

  function IfHeld(rules: set<Rule>): Option<Object> {
    if rules == {} then None else Some(Dnats(rules))
  }

  /** A row that is deleted after its ports could not be read. */
  function LeftByRow(c: Core, id: Id, op: Op): Option<Object> {
    if RowGoes(op.pc) then IfHeld(RulesHeld(c, id)) else None
  }

  function LeftByAdvance(c: Core, id: Id, op: Op, out: Outcome): Option<Object> {
    match op.pc
    case Prepare(_) => if out.Half? then Some(File(RootfsPath(id))) else None
    case DropFile => IfPresent(c, RootfsPath(id))
    case ForwardOut => if op.kind.Clone? then None else IfInForce(c, PreRule(RowOf(c, id)))
    case ExposeOut(gp) => IfInForce(c, ExtraRule(c, id, Prerouting, gp))
    case RollTap => IfAttached(c, RowOf(c, id).tap)
    case DestroyTap(_) => IfAttached(c, RowOf(c, id).tap)
    case RollDisk => IfPresent(c, RowOf(c, id).rootfsPath)
    case DestroyDisk(_) => IfPresent(c, RowOf(c, id).rootfsPath)
    case _ => None
  }

  predicate Leaks(w: World, ev: Event) {
    LeftBy(w, ev).Some?
  }

  function WithStray(s: Strays, o: Option<Object>): Strays {
    match o
    case None => s
    case Some(Tap(tap)) => s.(taps := s.taps + {tap})
    case Some(Dnats(rules)) => s.(rules := s.rules + multiset(rules))
    case Some(File(path)) => s.(files := s.files + {path})
  }

  predicate OnHost(h: Host, o: Object) {
    match o
    case Tap(tap) => tap in h.taps
    case Dnats(rules) => forall r | r in rules :: h.rules[r] >= 1
    case File(path) => path in h.files
  }

  predicate IsThere(h: Host, o: Option<Object>) {
    o.Some? ==> OnHost(h, o.value)
  }

  /** What a step makes of the strays: none, or exactly what it leaves on the host. */
  ghost predicate StrayStep(c: Core, d: Core, o: Option<Object>) {
    d.stray == WithStray(c.stray, o) && IsThere(d.host, o)
  }

  /** Rules in the ledger are on the host. */
  ghost predicate InForce(c: Core) {
    forall r | r in c.led.rules :: c.host.rules[r] >= 1
  }

  /** The same, told of the command. */
  function LeftByCommand(c: Core, id: Id, cmd: Command): Option<Object> {
    match cmd
    case Litters => Some(File(RootfsPath(id)))
    case Discards(done) => if done then None else IfPresent(c, RootfsPath(id))
    case DeletesRow => IfHeld(RulesHeld(c, id))
    case ForsakesRule(r) => IfInForce(c, r)
    case DropsRule(r, done) => if done then None else IfInForce(c, r)
    case DropsTap(done) => if done || id !in c.t.sandboxes then None else IfAttached(c, RowOf(c, id).tap)
    case DropsDisk(done) => if done || id !in c.t.sandboxes then None else IfPresent(c, RowOf(c, id).rootfsPath)
    case _ => None
  }

  lemma RunStrays(c: Core, id: Id, cmd: Command)
    requires InForce(c)
    ensures StrayStep(c, Run(c, id, cmd), LeftByCommand(c, id, cmd))
  {
    hide InForce, RootfsPath, RulesHeld, ForsakeRule, RemoveRow, IfInForce, IfHeld;
    HeldStrays(c, id);
    if cmd.ForsakesRule? || cmd.DropsRule? {
      ForsakeStrays(c, cmd.rule);
    }
  }

  lemma ForsakeStrays(c: Core, r: Rule)
    requires InForce(c)
    ensures StrayStep(c, ForsakeRule(c, r), IfInForce(c, r))
  {
    assert c.stray.rules[r := c.stray.rules[r] + 1] == c.stray.rules + multiset({r});
  }

  lemma HeldStrays(c: Core, id: Id)
    requires InForce(c)
    ensures StrayStep(c, RemoveRow(c, id), IfHeld(RulesHeld(c, id)))
  {
    hide RulesHeld;
    HeldInForce(c, id);
    assert RulesHeld(c, id) == {} ==> c.stray.rules + multiset(RulesHeld(c, id)) == c.stray.rules;
  }

  lemma HeldInForce(c: Core, id: Id)
    requires InForce(c)
    ensures forall r | r in RulesHeld(c, id) :: c.host.rules[r] >= 1
  {
    hide Owns;
  }

  lemma LeftByIsLeft(w: World, p: Pools, ev: Event, id: Id)
    requires Enabled(w, ev) && Subject(ev) == Some(id)
    ensures LeftBy(w, ev) == LeftByCommand(w.c, id, CommandAt(w, p, ev))
  {
    hide Enabled, CommandOf, LeftByCommand, LeftByAdvance, LeftByRow;
    if ev.Advance? {
      OpWorks(w, ev);
      LeftByAdvanceIsLeft(w, p, id, w.ops[id], ev.out);
    } else {
      LeftByOthers(w.c, id, CommandAt(w, p, ev));
    }
  }

  lemma LeftByOthers(c: Core, id: Id, cmd: Command)
    requires cmd.Idles? || cmd.InsertsRow? || cmd.SetsDeadline? || cmd.DropsRule?
    ensures LeftByCommand(c, id, cmd) == if cmd.DropsRule? && !cmd.done then IfInForce(c, cmd.rule) else None
  {
  }

  lemma LeftByAdvanceIsLeft(w: World, p: Pools, id: Id, op: Op, out: Outcome)
    requires CanAdvance(w, id, op, out)
    ensures LeftByCommand(w.c, id, CommandOf(w.c, p, id, op, out)) == if out.Done? then LeftByRow(w.c, id, op)
                                                                      else LeftByAdvance(w.c, id, op, out)
  {
    hide RootfsPath, RulesHeld, Registered, Allotted, IfPresent, IfInForce, IfAttached, IfHeld, PreRule, OutRule,
      ExtraRule;
  }

  lemma LooseStrays(c: Core, path: string, done: bool)
    ensures StrayStep(c, c, None) && StrayStep(c, LayLoose(c, path), None)
    ensures StrayStep(c, Litter(c, path), Some(File(path)))
    ensures StrayStep(c, DropLoose(c, path, done), if done then None else IfPresent(c, path))
  {
  }

  lemma StagingStrays(w: World, fan: Id, out: Outcome)
    ensures StrayStep(w.c, StageStep(w, fan, out).c, LeftBy(w, StageBaked(fan, out)))
    ensures StrayStep(w.c, UnstageStep(w, fan, out).c, LeftBy(w, UnstageBaked(fan, out)))
  {
    hide LayLoose, Litter, DropLoose, StrayStep, LeftByAdvance, LeftByRow;
    LooseStrays(w.c, BakedPath(w, fan), out.Done?);
  }

  lemma OtherStrays(w: World, p: Pools, ev: Event)
    requires Enabled(w, ev) && Subject(ev) == None && !ev.Crash?
    ensures StrayStep(w.c, Apply(w, p, ev).c, LeftBy(w, ev))
  {
    hide Enabled, StageStep, UnstageStep, AdvanceOp, RemoveRuleStep, ThawStep, RestoreStep, SpawnStep, RestartStep,
      Run, LeftByAdvance, LeftByRow, IfPresent, IfAbsent;
    if ev.StageBaked? || ev.UnstageBaked? {
      StagingStrays(w, ev.fan, ev.out);
      hide StrayStep;
    }
  }

  lemma StepStrays(w: World, p: Pools, ev: Event)
    requires InForce(w.c) && Enabled(w, ev) && !ev.Crash?
    ensures StrayStep(w.c, Apply(w, p, ev).c, LeftBy(w, ev))
  {
    hide Enabled, Apply, InForce, LeftBy, LeftByCommand, StrayStep, Run, CommandAt;
    if Subject(ev).Some? {
      EventIsStep(w, p, ev, Subject(ev).value);
      LeftByIsLeft(w, p, ev, Subject(ev).value);
      RunStrays(w.c, Subject(ev).value, CommandAt(w, p, ev));
    } else {
      OtherStrays(w, p, ev);
    }
  }

  lemma CrashStrays(w: World, p: Pools, listed: bool)
    ensures Enabled(w, Crash(listed))
    ensures Apply(w, p, Crash(listed)).c.stray == w.c.stray.(cut := w.c.stray.cut + w.c.loose)
    ensures LeftBy(w, Crash(listed)) == None
  {
  }

  lemma IsInForce(w: World, p: Pools)
    requires Inv(w, p)
    ensures InForce(w.c)
  {
    hide BookInv, TapsBalance, FilesBalance, Owns, LocalInv, FansInv, ImagesInv, LooseInv, DisksInv, BrokenInv;
  }

  /** Where strays come from, exactly: a step leaves an object to nobody if and only if it is one of these, the object is
      then on the host and among the strays, and nothing else becomes a stray; but a crash cuts off the files of the
      operations in progress that have no row. */
  lemma StraysExactly(w: World, p: Pools, ev: Event)
    requires Inv(w, p) && Enabled(w, ev)
    ensures var d, o := Apply(w, p, ev).c, LeftBy(w, ev);
            && d.stray == (if ev.Crash? then w.c.stray.(cut := w.c.stray.cut + w.c.loose) else WithStray(w.c.stray, o))
            && IsThere(d.host, o)
  {
    hide Inv, Enabled, Apply, LeftBy, WithStray, OnHost;
    if ev.Crash? {
      CrashStrays(w, p, ev.listed);
    } else {
      IsInForce(w, p);
      StepStrays(w, p, ev);
    }
  }

  ghost predicate LeakFree(w: World, p: Pools, es: seq<Event>)
    decreases |es|
  {
    es == [] || (!Leaks(w, es[0]) && LeakFree(Apply(w, p, es[0]), p, es[1..]))
  }

  lemma {:induction false} LeakFreeStrays(w: World, p: Pools, es: seq<Event>)
    requires Inv(w, p) && EnabledRun(w, p, es) && LeakFree(w, p, es)
    ensures Exec(w, p, es).c.stray == w.c.stray.(cut := Exec(w, p, es).c.stray.cut)
    ensures (forall e | e in es :: !e.Crash?) ==> Exec(w, p, es).c.stray == w.c.stray
    decreases |es|
  {
    hide Inv, Enabled, Apply, LeftBy, Spares;
    if es != [] {
      StraysExactly(w, p, es[0]);
      ApplyKeeps(w, p, es[0]);
      LeakFreeStrays(Apply(w, p, es[0]), p, es[1..]);
    }
  }

  predicate AllCutOff(w: World) {
    forall id | id in w.leftover :: w.leftover[id].cutOff
  }

  /** A run without a leak, however many of its operations fail and roll back, whatever crashes interrupt it: once no
      sandbox and no operation is left, the host has no tap and no rule, and no file but those that a crash cut off.
      Every firecracker process that is left is off the network, and there is none if and only if none is out of reach:
      none has lived through a crash that came before its process id was recorded, or after which the rows could not be
      listed. */
  lemma EmptyServerEmptyHost(p: Pools, es: seq<Event>)
    requires EnabledRun(INIT, p, es) && LeakFree(INIT, p, es)
    ensures var w := Exec(INIT, p, es);
            w.c.t.sandboxes == map[] && w.ops == map[] && w.fans == map[] ==>
              w.c.t.ports == map[] && w.machines == map[] && w.guests == map[]
              && w.c.host.taps == map[] && w.c.host.rules == multiset{} && w.c.host.files <= w.c.stray.cut
              && ((forall e | e in es :: !e.Crash?) ==> w.c.host.files == {})
              && AllCutOff(w)
              && (w.leftover == map[] <==> forall id :: !Lost(INIT, p, es, id, false))
  {
    hide Inv, LeakFree, Lost, LeftBy, Leaks, Followed;
    var w := Exec(INIT, p, es);
    InitInv(p);
    ReachableInv(p, es);
    LeakFreeStrays(INIT, p, es);
    forall id ensures id in w.leftover ==> w.leftover[id].cutOff {
      LeftoversAreCutOff(p, es, id);
    }
    if w.c.t.sandboxes == map[] && w.ops == map[] && w.fans == map[] {
      EmptyHost(w, p);
      NoneLeft(p, es);
    }
  }

  lemma NoneLeft(p: Pools, es: seq<Event>)
    requires EnabledRun(INIT, p, es) && Exec(INIT, p, es).c.t.sandboxes == map[]
    ensures Exec(INIT, p, es).leftover == map[] <==> forall id :: !Lost(INIT, p, es, id, false)
  {
    hide Lost, Followed, EnabledRun, Exec;
    var w := Exec(INIT, p, es);
    if w.leftover == map[] {
      forall id ensures !Lost(INIT, p, es, id, false) {
        NothingIsForgotten(p, es, id);
      }
    } else {
      var id :| id in w.leftover;
      NothingIsForgotten(p, es, id);
      assert Lost(INIT, p, es, id, false);
    }
  }

  lemma EmptyHost(w: World, p: Pools)
    requires Inv(w, p) && w.c.t.sandboxes == map[] && w.ops == map[] && w.fans == map[]
    requires w.c.stray == NO_STRAYS.(cut := w.c.stray.cut)
    ensures w.c.t.ports == map[] && w.machines == map[] && w.guests == map[]
    ensures w.c.host.taps == map[] && w.c.host.rules == multiset{} && w.c.host.files <= w.c.stray.cut
  {
    hide Inv;
    OnlyStrays(w, p);
    assert forall r :: w.c.host.rules[r] <= NO_STRAYS.rules[r];
  }

  /** Without sandboxes and operations the host holds nothing but strays. */
  lemma OnlyStrays(w: World, p: Pools)
    requires Inv(w, p) && w.c.t.sandboxes == map[] && w.ops == map[] && w.fans == map[]
    ensures w.c.t.ports == map[] && w.machines == map[] && w.guests == map[]
    ensures w.c.host.taps.Keys <= w.c.stray.taps && w.c.host.rules <= w.c.stray.rules
    ensures w.c.host.files <= w.c.stray.files + w.c.stray.cut
  {
    hide InPools, Functional, Recorded, SeenInPools, FansInv, ImagesInv;
    assert forall k | k in w.c.t.ports :: k.0 in w.c.t.sandboxes;
    forall id ensures id !in w.machines && id !in w.guests {
      assert LocalInv(w, id);
    }
    forall r ensures w.c.host.rules[r] <= w.c.stray.rules[r] {
      assert !exists id :: Owns(w.c.t, id, r);
    }
    assert w.c.loose == {};
  }

  // --- uniqueness ---

  /** No tap, address, disk or host port is held twice, and every extra port has its sandbox. */
  ghost predicate AllApart(t: Tables) {
    && (forall i, j | i in t.sandboxes && j in t.sandboxes && i != j ::
          && Apart(t.sandboxes[i], t.sandboxes[j]) && t.sandboxes[i].rootfsPath != t.sandboxes[j].rootfsPath)
    && (forall k, l | k in t.ports && l in t.ports && k != l :: t.ports[k] != t.ports[l])
    && (forall i, k | i in t.sandboxes && k in t.ports :: t.sandboxes[i].hostPort != t.ports[k])
    && (forall k | k in t.ports :: k.0 in t.sandboxes)
  }

  /** At every point of every run no two sandboxes share a tap, an address, a disk or a host port, primary and extra
      ports taken together; and every extra port has its sandbox. */
  lemma NamesUnique(p: Pools, es: seq<Event>)
    requires EnabledRun(INIT, p, es)
    ensures AllApart(Exec(INIT, p, es).c.t)
  {
    hide Inv, CoreInv, EnabledRun, Exec, AllApart;
    ReachableInv(p, es);
    CoreOf(Exec(INIT, p, es), p);
    BookIsApart(Exec(INIT, p, es).c, p);
  }

  lemma BookIsApart(c: Core, p: Pools)
    requires CoreInv(c, p)
    ensures AllApart(c.t)
  {
    var t := c.t;
    hide InPools, Functional, Recorded, SeenInPools, TapsBalance, FilesBalance, RulesBalance;
    forall i, j | i in t.sandboxes && j in t.sandboxes && i != j
      ensures Apart(t.sandboxes[i], t.sandboxes[j]) && t.sandboxes[i].rootfsPath != t.sandboxes[j].rootfsPath
    {
      if t.sandboxes[i].rootfsPath == t.sandboxes[j].rootfsPath {
        SamePathSameRow(Book(t, c.seen), p, i, j);
      }
    }
  }

  // --- live sandboxes ---

  /** Of the rules that the sandbox's rows call for exactly those of the ports that are not broken are in force; a broken
      port has none but strays. */
  ghost predicate HasItsRules(w: World, id: Id) {
    id in w.c.t.sandboxes ==>
      forall r | r in RulesOf(w.c.t, id) ::
        && (r in w.c.led.rules <==> (id, r.guestPort) !in w.broken)
        && (if (id, r.guestPort) in w.broken then w.c.host.rules[r] <= w.c.stray.rules[r] else w.c.host.rules[r] >= 1)
  }

  /** A sandbox that the server holds and that no operation works on has its tap on the bridge and its disk. Of the
      rules that its rows call for exactly those of the ports that are not broken are in force; a broken port has none,
      but for copies that are strays. */
  lemma LiveIsComplete(p: Pools, es: seq<Event>, id: Id)
    requires EnabledRun(INIT, p, es)
    ensures var w := Exec(INIT, p, es);
            id in w.machines && id !in w.ops ==>
              id in w.c.t.sandboxes && Bridged(w.c, id) && RowOf(w.c, id).rootfsPath in w.c.host.files && HasItsRules(w, id)
  {
    hide Inv, EnabledRun, Exec, HasItsRules;
    ReachableInv(p, es);
    LiveIsWired(Exec(INIT, p, es), p, id);
  }

  lemma LiveIsWired(w: World, p: Pools, id: Id)
    requires Inv(w, p)
    ensures id in w.machines && id !in w.ops ==>
              id in w.c.t.sandboxes && Bridged(w.c, id) && RowOf(w.c, id).rootfsPath in w.c.host.files && HasItsRules(w, id)
  {
    hide Inv, HasItsRules, OpInv, GuestInv, BrokenInv, BookInv, RulesBalance;
    LocalOf(w, p, id);
    CoreOf(w, p);
    if id in w.machines && id !in w.ops {
      LiveRules(w, p, id);
    }
  }

  lemma LiveRules(w: World, p: Pools, id: Id)
    requires CoreInv(w.c, p) && LocalInv(w, id) && BrokenInv(w, id) && id in w.machines && id !in w.ops
    ensures HasItsRules(w, id)
  {
    hide OpInv, GuestInv, RulesOf, BookInv, TapsBalance, FilesBalance, Wired;
    forall r | id in w.c.t.sandboxes && r in RulesOf(w.c.t, id)
      ensures r in w.c.led.rules <==> (id, r.guestPort) !in w.broken
      ensures if (id, r.guestPort) in w.broken then w.c.host.rules[r] <= w.c.stray.rules[r] else w.c.host.rules[r] >= 1
    {
      RulesOfIsOwned(w.c.t, id, r);
      assert Some(r.guestPort) != None;
    }
  }

  // --- the bridge ---

  /** The address on the guest's eth0. */
  function AddressOf(w: World, id: Id): Option<string> {
    if id in w.guests then w.guests[id].memory.ip else None
  }

  /** Guests whose tap is attached to the bridge have pairwise different addresses, each the one of its row. In
      particular a clone never brings the address baked into its snapshot onto the bridge. A process that nobody knows
      of any more is off the network, unless the deletion of its tap device failed. */
  lemma BridgeIsSafe(p: Pools, es: seq<Event>, i: Id, j: Id)
    requires EnabledRun(INIT, p, es)
    ensures var w := Exec(INIT, p, es);
            i in w.guests && i in w.c.t.sandboxes && Bridged(w.c, i) ==>
              && AddressOf(w, i) == Some(RowOf(w.c, i).ip)
              && (j in w.guests && j in w.c.t.sandboxes && Bridged(w.c, j) && i != j ==> AddressOf(w, i) != AddressOf(w, j))
              && ForgottenAt(w, j)
  {
    var w := Exec(INIT, p, es);
    ReachableInv(p, es);
    LocalOf(w, p, i);
    LocalOf(w, p, j);
    LeftoversAreCutOff(p, es, j);
    hide Inv, LocalInv, Bridged, EnabledRun, Exec;
    HasOwnAddress(w, i);
    HasOwnAddress(w, j);
    if i in w.c.t.sandboxes && j in w.c.t.sandboxes && i != j {
      NamesUnique(p, es);
      assert Apart(w.c.t.sandboxes[i], w.c.t.sandboxes[j]);
    }
  }

  lemma HasOwnAddress(w: World, id: Id)
    requires LocalInv(w, id)
    ensures id in w.guests && id in w.c.t.sandboxes && Bridged(w.c, id) ==> AddressOf(w, id) == Some(RowOf(w.c, id).ip)
  {
    hide OpInv, MachineInv, Bridged;
  }

  predicate Ignores(w: World, id: Id, poll: Poll) {
    id in w.guests ==> Thaw(w.guests[id], poll) == w.guests[id]
  }

  /** And it stays so: while its tap is on the bridge no poll of the thaw agent, whatever its outcome, changes a guest. */
  lemma BridgedGuestIsStable(p: Pools, es: seq<Event>, id: Id, poll: Poll)
    requires EnabledRun(INIT, p, es)
    ensures var w := Exec(INIT, p, es);
            id in w.c.t.sandboxes && Bridged(w.c, id) ==> Ignores(w, id, poll)
  {
    hide Inv, LocalInv, EnabledRun, Exec, Ignores, Bridged;
    ReachableInv(p, es);
    LocalOf(Exec(INIT, p, es), p, id);
    OwnIgnores(Exec(INIT, p, es), id, poll);
  }

  lemma OwnIgnores(w: World, id: Id, poll: Poll)
    requires LocalInv(w, id)
    ensures id in w.c.t.sandboxes && Bridged(w.c, id) ==> Ignores(w, id, poll)
  {
    hide OpInv, MachineInv, Bridged;
  }

  // --- a new identity ---

  /** A guest after a number of polls. */
  function Polled(g: Guest, polls: seq<Poll>): Guest {
    if polls == [] then g else Thaw(Polled(g, polls[..|polls| - 1]), polls[|polls| - 1])
  }

  /** A guest that finds a new identity tries until a poll succeeds, and then has it for good. Until then it has the
      address at which the last attempt that touched it broke off: none after the flush, the new one when only the route
      was missing; and its old one as long as no attempt came so far. */
  lemma {:induction false} PollsDecide(g: Guest, polls: seq<Poll>)
    requires g.mmds.Some? && g.mmds.value.gen != "" && g.mmds.value.gen != g.memory.lastGen
    ensures var h := Polled(g, polls);
            && h.mmds == g.mmds && (Reidentified(h) <==> Applied in polls)
            && (Applied in polls ==> h.memory == Memory(Some(g.mmds.value.ip), g.mmds.value.gen))
            && (Applied !in polls ==> h.memory.lastGen == g.memory.lastGen)
            && (AllKept(polls) ==> h == g)
            && forall k | 0 <= k < |polls| && Applied !in polls && !polls[k].Kept? && AllKept(polls[k + 1..]) ::
                 h.memory.ip == if polls[k].Flushed? then None else Some(g.mmds.value.ip)
  {
    if polls != [] {
      var front, last := polls[..|polls| - 1], polls[|polls| - 1];
      PollsDecide(g, front);
      assert polls == front + [last];
      forall k | 0 <= k < |front| && !front[k].Kept? && AllKept(polls[k + 1..]) ensures last.Kept? && AllKept(front[k + 1..]) {
        assert polls[k + 1..] == front[k + 1..] + [last];
        assert polls[k + 1..][|front| - k - 1] == last;
      }
    }
  }

  predicate AllKept(polls: seq<Poll>) {
    forall k | 0 <= k < |polls| :: polls[k].Kept?
  }

  function Ticks(id: Id, polls: seq<Poll>): seq<Event> {
    if polls == [] then [] else Ticks(id, polls[..|polls| - 1]) + [ThawTick(id, polls[|polls| - 1])]
  }

  /** The agent of a guest, or of a process that nobody knows of, has polled this often. */
  function AfterPolls(w: World, id: Id, polls: seq<Poll>): World {
    if id in w.guests then w.(guests := w.guests[id := Polled(w.guests[id], polls)])
    else if id in w.leftover then w.(leftover := w.leftover[id := w.leftover[id].(guest := Polled(w.leftover[id].guest, polls))])
    else w
  }

  /** The agent of every guest polls, that of a process which nobody knows of too, and that is all it changes. */
  lemma {:induction false} TicksArePolls(w: World, p: Pools, id: Id, polls: seq<Poll>)
    requires id in w.guests || id in w.leftover
    ensures EnabledRun(w, p, Ticks(id, polls)) && Exec(w, p, Ticks(id, polls)) == AfterPolls(w, id, polls)
    decreases |polls|
  {
    hide EnabledRun, Exec, Enabled, Apply, AfterPolls;
    NotTicked(w, p, id);
    if polls != [] {
      var front, last := polls[..|polls| - 1], polls[|polls| - 1];
      TicksArePolls(w, p, id, front);
      OneTick(w, p, id, front, last);
      RunOne(AfterPolls(w, id, front), p, ThawTick(id, last));
      RunAppend(w, p, Ticks(id, front), [ThawTick(id, last)]);
      assert polls == front + [last];
    }
  }

  lemma NotTicked(w: World, p: Pools, id: Id)
    ensures EnabledRun(w, p, []) && Exec(w, p, []) == w == AfterPolls(w, id, [])
  {
    hide Enabled, Apply;
    assert id in w.guests ==> w.guests[id := w.guests[id]] == w.guests;
    assert id in w.leftover ==> w.leftover[id := w.leftover[id]] == w.leftover;
  }

  lemma OneTick(w: World, p: Pools, id: Id, polls: seq<Poll>, poll: Poll)
    requires id in w.guests || id in w.leftover
    ensures var v := AfterPolls(w, id, polls);
            Enabled(v, ThawTick(id, poll)) && Apply(v, p, ThawTick(id, poll)) == AfterPolls(w, id, polls + [poll])
  {
    hide Thaw, AdvanceOp, RemoveRuleStep, RestoreStep, SpawnStep, RestartStep, StageStep, UnstageStep, SnapshotStep,
      Run;
    assert (polls + [poll])[..|polls|] == polls;
  }
}
