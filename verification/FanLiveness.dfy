/** A fan-out can succeed: whatever else is under way, one whose commands succeed brings every one of its clones to
    life. */
module FanLiveness {
  import opened Wrappers
  import opened Pools
  import opened Tables
  import opened History
  import opened Hosts
  import opened Ledger
  import opened Commands
  import opened Lifecycle
  import opened Safety
  import opened Events
  import opened Runs
  import opened Guarantees
  import opened Processes
  import opened Liveness

  // --- what a fan-out leaves alone ---

  /** Nothing differs for sandbox j. */
  ghost predicate Leaves(w: World, v: World, j: Id) {
    && (j in w.ops <==> j in v.ops) && (j in w.ops ==> v.ops[j] == w.ops[j])
    && (j in w.machines <==> j in v.machines) && (j in w.machines ==> v.machines[j] == w.machines[j])
    && (j in w.guests <==> j in v.guests) && (j in w.guests ==> v.guests[j] == w.guests[j])
    && (j in w.c.t.sandboxes <==> j in v.c.t.sandboxes) && RowOf(v.c, j) == RowOf(w.c, j)
  }

  /** Only these sandboxes and this fan-out are concerned, and no stray is made. */
  ghost predicate OnlyThese(w: World, v: World, fan: Id, ids: set<Id>) {
    && v.images == w.images && v.leftover == w.leftover && v.broken == w.broken && v.c.t.snapshots == w.c.t.snapshots
    && v.c.t.ports == w.c.t.ports && v.c.stray == w.c.stray && v.fans - {fan} == w.fans - {fan}
    && forall j | j !in ids :: Leaves(w, v, j)
  }

  lemma OnlyTheseTransitive(u: World, v: World, w: World, fan: Id, a: set<Id>, b: set<Id>)
    requires OnlyThese(u, v, fan, a) && OnlyThese(v, w, fan, b)
    ensures OnlyThese(u, w, fan, a + b)
  {
    forall j | j !in a + b ensures Leaves(u, w, j) {
      assert Leaves(u, v, j) && Leaves(v, w, j);
    }
  }

  lemma BesideIsOnly(w: World, v: World, fan: Id, id: Id)
    requires Beside(w, v, id)
    ensures OnlyThese(w, v, fan, {id}) && v.fans == w.fans
  {
    forall j | j != id ensures Leaves(w, v, j) {
      assert j in w.ops - {id} <==> j in v.ops - {id};
      assert j in w.machines - {id} <==> j in v.machines - {id};
      assert j in w.guests - {id} <==> j in v.guests - {id};
      assert j in w.c.t.sandboxes - {id} <==> j in v.c.t.sandboxes - {id};
    }
  }

  // --- clones that wait ---

  /** A clone of the fan-out that has parked, with this deadline. */
  ghost predicate Waits(w: World, fan: Id, id: Id, e: Option<int>) {
    && id in w.ops && IsClone(w.ops[id], fan) && w.ops[id].pc.Parked? && ComingUp(w, id, w.ops[id])
    && RowOf(w.c, id).expiresAt == e
  }

  lemma StillWaits(w: World, v: World, fan: Id, id: Id, e: Option<int>)
    requires Waits(w, fan, id, e) && Leaves(w, v, id)
    ensures Waits(v, fan, id, e)
  {
  }

  // --- one clone ---

  /** A new clone begins, and nothing stands in its way. */
  lemma Begins(w: World, p: Pools, fan: Id, id: Id, e: Option<int>) returns (op: Op)
    requires InPhase(w, fan, BringUp) && Fresh(w, id) && id !in w.guests
    requires Create(w.c.t, p, id, RootfsPath(id), e).Ok? && Allot(w.c.t, p, id, RootfsPath(id), e).tap !in w.c.host.taps
    ensures Enabled(w, SpawnClone(fan, id, e)) && op.pc.Copy? && IsClone(op, fan)
    ensures var v, row := Apply(w, p, SpawnClone(fan, id, e)), Allot(w.c.t, p, id, RootfsPath(id), e);
            && ComingUp(v, id, op) && OnlyThese(w, v, fan, {id}) && v.fans == w.fans
            && v.c.t == WithSandbox(w.c.t, id, row) && v.c.seen == w.c.seen + {DiskOf(row)}
  {
    op := Op(Clone(fan, w.fans[fan].image), Copy);
    var r := Create(w.c.t, p, id, RootfsPath(id), e);
    hide Create, RootfsPath, Fresh, AdvanceOp, RemoveRuleStep, RestoreStep, RestartStep, ThawStep, SnapshotStep,
      StageStep, UnstageStep, OnlyThese, ComingUp, RowStep;
    assert Apply(w, p, SpawnClone(fan, id, e)) == RowStep(w, id, r, op);
    hide Apply, Enabled;
    CreatedHasNoPid(w.c.t, p, id, e);
    NewRowIsUp(w, id, r, op);
    NewRowIsOnly(w, fan, id, r, op);
  }

  lemma CreatedHasNoPid(t: Tables, p: Pools, id: Id, e: Option<int>)
    ensures var r := Create(t, p, id, RootfsPath(id), e); r.Ok? ==> r.value.pid == 0 && r.value.expiresAt == e
  {
    hide Create, TapHeld, AddressHeld, LeastFreePort;
    var _, _ := CreatedIsLeast(t, p, id, RootfsPath(id), e);
  }

  lemma NewRowIsUp(w: World, id: Id, r: Result<Sandbox, Error>, op: Op)
    requires r.Ok? && r.value.pid == 0 && r.value.tap !in w.c.host.taps && id !in w.guests && op.kind.Clone?
    requires op.pc.Copy?
    ensures ComingUp(RowStep(w, id, r, op), id, op)
  {
  }

  lemma NewRowIsOnly(w: World, fan: Id, id: Id, r: Result<Sandbox, Error>, op: Op)
    requires r.Ok?
    ensures var v := RowStep(w, id, r, op);
            && OnlyThese(w, v, fan, {id}) && v.fans == w.fans && v.c.t == WithSandbox(w.c.t, id, r.value)
            && v.c.seen == w.c.seen + {DiskOf(r.value)}
  {
  }

  /** While no tap is a stray, a tap that the registry allots is free on the host. */
  lemma AllottedTapIsFree(w: World, p: Pools, id: Id, e: Option<int>)
    requires Inv(w, p) && w.c.stray.taps == {}
    ensures Create(w.c.t, p, id, RootfsPath(id), e).Ok? ==> Allot(w.c.t, p, id, RootfsPath(id), e).tap !in w.c.host.taps
  {
    hide Inv, Create, RootfsPath, BookInv, FilesBalance, RulesBalance, AddressHeld, LeastFreePort;
    CoreOf(w, p);
    var _, _ := CreatedIsLeast(w.c.t, p, id, RootfsPath(id), e);
    IsConsistent(w.c, p);
    forall tap | tap in w.c.host.taps ensures TapHeld(w.c.t, tap) {
      var j :| j in w.c.led.taps && w.c.t.sandboxes[j].tap == tap;
    }
  }

  /** A new clone comes up and parks. */
  lemma Parks(w: World, p: Pools, fan: Id, id: Id, e: Option<int>) returns (es: seq<Event>)
    requires Inv(w, p) && w.c.stray.taps == {} && InPhase(w, fan, BringUp) && Fresh(w, id)
    requires Create(w.c.t, p, id, RootfsPath(id), e).Ok?
    ensures EnabledRun(w, p, es) && AllSucceed(es)
    ensures var v, row := Exec(w, p, es), Allot(w.c.t, p, id, RootfsPath(id), e);
            && Inv(v, p) && Waits(v, fan, id, e) && OnlyThese(w, v, fan, {id}) && v.fans == w.fans
            && v.c.t.sandboxes.Keys == w.c.t.sandboxes.Keys + {id} && v.c.seen == w.c.seen + {DiskOf(row)}
  {
    hide Inv, Create, RootfsPath, Fresh, Enabled, Apply, ComingUp, Beside, OnlyThese, Waits, Spares;
    FreshHasNoGuest(w, p, id);
    AllottedTapIsFree(w, p, id, e);
    var op := Begins(w, p, fan, id, e);
    var v := Apply(w, p, SpawnClone(fan, id, e));
    var climb, last := Climbs(v, p, id, op, 7);
    RunCons(w, p, SpawnClone(fan, id, e), climb);
    es := [SpawnClone(fan, id, e)] + climb;
    RunKeeps(w, p, es);
    CreatedHasNoPid(w.c.t, p, id, e);
    ParkedWaits(v, Exec(v, p, climb), fan, id, last, e);
    BesideIsOnly(v, Exec(v, p, climb), fan, id);
    OnlyTheseTransitive(w, v, Exec(v, p, climb), fan, {id}, {id});
    assert {id} + {id} == {id};
  }

  lemma FreshHasNoGuest(w: World, p: Pools, id: Id)
    requires Inv(w, p) && Fresh(w, id)
    ensures id !in w.guests
  {
    hide Inv, OpInv, MachineInv, FreshDisk;
    LocalOf(w, p, id);
  }

  lemma ParkedWaits(w: World, v: World, fan: Id, id: Id, last: Op, e: Option<int>)
    requires Beside(w, v, id) && id in w.c.t.sandboxes && w.c.t.sandboxes[id].expiresAt == e
    requires ComingUp(v, id, last) && UpRank(last) == 7 && IsClone(last, fan)
    ensures Waits(v, fan, id, e) && v.c.t.sandboxes.Keys == w.c.t.sandboxes.Keys && v.c.seen == w.c.seen
  {
    assert w.c.t.sandboxes.Keys == (w.c.t.sandboxes - {id}).Keys + {id};
    assert v.c.t.sandboxes.Keys == (v.c.t.sandboxes - {id}).Keys + {id};
  }

  // --- all clones ---

  ghost predicate AllWait(w: World, fan: Id, ids: seq<Id>, e: Option<int>) {
    forall id | id in ids :: Waits(w, fan, id, e)
  }

  ghost predicate AllFresh(w: World, ids: seq<Id>) {
    Distinct(ids) && forall id | id in ids :: Fresh(w, id)
  }

  lemma FreshOnes(w: World, ids: seq<Id>)
    requires AllFresh(w, ids)
    ensures Distinct(ids) && (ids != [] ==> Fresh(w, ids[0]))
  {
    hide Fresh;
  }

  lemma StillFresh(w: World, v: World, fan: Id, ids: seq<Id>, row: Sandbox)
    requires ids != [] && AllFresh(w, ids) && OnlyThese(w, v, fan, {ids[0]}) && v.c.seen == w.c.seen + {DiskOf(row)}
    requires row.rootfsPath == RootfsPath(ids[0])
    ensures AllFresh(v, ids[1..]) && Elems(ids) == {ids[0]} + Elems(ids[1..]) && ids[0] !in Elems(ids[1..])
  {
    hide RootfsPath;
    assert ids == [ids[0]] + ids[1..];
    forall id | id in ids[1..] ensures Fresh(v, id) {
      assert Leaves(w, v, id) && Fresh(w, id);
      RootfsPathInjective(ids[0], id);
    }
  }

  lemma LessRoom(t: Tables, u: Tables, p: Pools, id: Id, n: nat)
    requires Room(t, p, n + 1) && u.sandboxes.Keys == t.sandboxes.Keys + {id} && u.ports == t.ports
    ensures Room(u, p, n)
  {
    hide TapPool, IPPool, PortPool;
    assert |u.sandboxes| == |u.sandboxes.Keys| && |t.sandboxes| == |t.sandboxes.Keys|;
  }

  lemma RoomForOne(w: World, p: Pools, id: Id, e: Option<int>, n: int)
    requires Inv(w, p) && Fresh(w, id) && Room(w.c.t, p, n + 1) && n >= 0
    ensures Create(w.c.t, p, id, RootfsPath(id), e).Ok?
    ensures Allot(w.c.t, p, id, RootfsPath(id), e).rootfsPath == RootfsPath(id)
  {
    hide Inv, RootfsPath, Create, TapPool, IPPool, PortPool, Consistent, InPools, FreshDisk, TapHeld, AddressHeld,
      LeastFreePort;
    CoreOf(w, p);
    ExactAdmission(w.c.t, p, id, RootfsPath(id), e);
    var _, _ := CreatedIsLeast(w.c.t, p, id, RootfsPath(id), e);
  }

  /** Phase 1: every clone comes up and parks. */
  lemma {:induction false} AllPark(w: World, p: Pools, fan: Id, ids: seq<Id>, e: Option<int>) returns (es: seq<Event>)
    requires Inv(w, p) && w.c.stray.taps == {} && InPhase(w, fan, BringUp) && AllFresh(w, ids) && Room(w.c.t, p, |ids|)
    ensures EnabledRun(w, p, es) && AllSucceed(es)
    ensures var v := Exec(w, p, es);
            Inv(v, p) && AllWait(v, fan, ids, e) && OnlyThese(w, v, fan, Elems(ids)) && v.fans == w.fans
    decreases |ids|
  {
    hide Inv, Create, RootfsPath, Fresh, Enabled, Apply, EnabledRun, Exec, OnlyThese, Waits, Room, AllFresh;
    es := [];
    if ids == [] {
      NothingRun(w, p, fan);
    } else {
      FreshOnes(w, ids);
      RoomForOne(w, p, ids[0], e, |ids| - 1);
      es := Parks(w, p, fan, ids[0], e);
      var v := Exec(w, p, es);
      StillFresh(w, v, fan, ids, Allot(w.c.t, p, ids[0], RootfsPath(ids[0]), e));
      SamePorts(w, v, fan, {ids[0]});
      LessRoom(w.c.t, v.c.t, p, ids[0], |ids| - 1);
      var rest := AllPark(v, p, fan, ids[1..], e);
      var u := Exec(v, p, rest);
      OthersLeft(v, u, fan, Elems(ids[1..]), ids[0]);
      StillWaits(v, u, fan, ids[0], e);
      OnlyTheseTransitive(w, v, u, fan, {ids[0]}, Elems(ids[1..]));
      RunAppend(w, p, es, rest);
      es := es + rest;
      assert ids == [ids[0]] + ids[1..];
    }
  }

  lemma NothingRun(w: World, p: Pools, fan: Id)
    ensures EnabledRun(w, p, []) && Exec(w, p, []) == w && OnlyThese(w, w, fan, {}) && Elems<Id>([]) == {}
  {
  }

  lemma SamePorts(w: World, v: World, fan: Id, ids: set<Id>)
    requires OnlyThese(w, v, fan, ids)
    ensures v.c.t.ports == w.c.t.ports && v.c.stray == w.c.stray
  {
  }

  lemma OthersLeft(w: World, v: World, fan: Id, ids: set<Id>, id: Id)
    requires OnlyThese(w, v, fan, ids) && id !in ids
    ensures Leaves(w, v, id)
  {
  }

  predicate NoClone(w: World, fan: Id) {
    forall id | id in w.ops :: !IsClone(w.ops[id], fan)
  }

  /** No other sandbox is a clone of the fan-out. */
  ghost predicate NoOthers(w: World, fan: Id, ids: seq<Id>) {
    forall id | id in w.ops && IsClone(w.ops[id], fan) :: id in ids
  }

  /** Phase 2 begins: the staged disk goes, if there is one. */
  lemma Unstages(w: World, p: Pools, fan: Id, ids: seq<Id>, e: Option<int>)
    requires InPhase(w, fan, BringUp) && AllWait(w, fan, ids, e) && NoOthers(w, fan, ids)
    ensures Enabled(w, UnstageBaked(fan, Done))
    ensures var v := Apply(w, p, UnstageBaked(fan, Done)); InPhase(v, fan, Settling) && OnlyThese(w, v, fan, {})
  {
    hide AdvanceOp, RemoveRuleStep, RestoreStep, SpawnStep, RestartStep, Run, ComingUp;
    assert CanUnstage(w, fan) by {
      forall id | id in w.ops && IsClone(w.ops[id], fan) ensures w.ops[id].pc.Parked? {
        assert Waits(w, fan, id, e);
      }
    }
  }

  predicate HasIdentity(w: World, id: Id) {
    id in w.guests && Reidentified(w.guests[id])
  }

  /** Its agent finds the new identity and applies it. */
  lemma PollsOne(w: World, p: Pools, fan: Id, id: Id, e: Option<int>)
    requires Inv(w, p) && Waits(w, fan, id, e)
    ensures Enabled(w, ThawTick(id, Applied))
    ensures var v := Apply(w, p, ThawTick(id, Applied));
            && v == w.(guests := v.guests) && Waits(v, fan, id, e) && OnlyThese(w, v, fan, {id}) && HasIdentity(v, id)
  {
    hide Inv, OpInv, MachineInv, AdvanceOp, RemoveRuleStep, RestoreStep, SpawnStep, RestartStep, Run;
    LocalOf(w, p, id);
  }

  lemma {:induction false} AllPoll(w: World, p: Pools, fan: Id, ids: seq<Id>, all: seq<Id>, e: Option<int>)
    returns (es: seq<Event>)
    requires Inv(w, p) && AllWait(w, fan, all, e) && Distinct(ids) && forall id | id in ids :: id in all
    ensures EnabledRun(w, p, es) && AllSucceed(es)
    ensures var v := Exec(w, p, es);
            && Inv(v, p) && v == w.(guests := v.guests) && AllWait(v, fan, all, e) && OnlyThese(w, v, fan, Elems(ids))
            && forall id | id in ids :: HasIdentity(v, id)
    decreases |ids|
  {
    hide Inv, Enabled, Apply, EnabledRun, Exec, OnlyThese, Waits, Reidentified, Spares;
    es := [];
    if ids == [] {
      NothingRun(w, p, fan);
    } else {
      assert Waits(w, fan, ids[0], e);
      var tick := ThawTick(ids[0], Applied);
      PollsOne(w, p, fan, ids[0], e);
      ApplyKeeps(w, p, tick);
      var v := Apply(w, p, tick);
      AllStillWait(w, v, fan, all, e, {ids[0]});
      assert ids == [ids[0]] + ids[1..];
      es := AllPoll(v, p, fan, ids[1..], all, e);
      OthersLeft(v, Exec(v, p, es), fan, Elems(ids[1..]), ids[0]);
      OnlyTheseTransitive(w, v, Exec(v, p, es), fan, {ids[0]}, Elems(ids[1..]));
      assert {ids[0]} + Elems(ids[1..]) == Elems(ids);
      RunCons(w, p, tick, es);
      es := [tick] + es;
    }
  }

  /** Those that are concerned wait, and the others wait still. */
  lemma AllStillWait(w: World, v: World, fan: Id, all: seq<Id>, e: Option<int>, ids: set<Id>)
    requires AllWait(w, fan, all, e) && OnlyThese(w, v, fan, ids) && forall id | id in ids :: Waits(v, fan, id, e)
    ensures AllWait(v, fan, all, e)
  {
    hide Waits;
    forall id | id in all ensures Waits(v, fan, id, e) {
      if id !in ids {
        assert Leaves(w, v, id);
        StillWaits(w, v, fan, id, e);
      }
    }
  }

  lemma SettlesFan(w: World, p: Pools, fan: Id, ids: seq<Id>)
    requires InPhase(w, fan, Settling) && NoOthers(w, fan, ids)
    requires forall id | id in ids :: HasIdentity(w, id)
    ensures Enabled(w, Settle(fan))
    ensures var v := Apply(w, p, Settle(fan)); InPhase(v, fan, Finishing) && OnlyThese(w, v, fan, {})
  {
    hide Reidentified, AdvanceOp, RemoveRuleStep, RestoreStep, SpawnStep, RestartStep, Run;
  }

  /** A clone is live: nothing works on it, and the server drives it as a process of its own. */
  ghost predicate IsLive(w: World, id: Id, e: Option<int>) {
    LiveAs(w, id, RawMachine) && RowOf(w.c, id).expiresAt == e
  }

  /** Phase 3 for one clone. */
  lemma FinishesOne(w: World, p: Pools, fan: Id, id: Id, e: Option<int>) returns (es: seq<Event>)
    requires InPhase(w, fan, Finishing) && Waits(w, fan, id, e)
    ensures EnabledRun(w, p, es) && AllDone(es, id)
    ensures var v := Exec(w, p, es); IsLive(v, id, e) && OnlyThese(w, v, fan, {id}) && v.fans == w.fans
  {
    hide EnabledRun, Exec, OnlyThese, UpRank;
    es := GoesLive(w, p, id, w.ops[id]);
    BesideIsOnly(w, Exec(w, p, es), fan, id);
  }

  lemma {:induction false} AllFinish(w: World, p: Pools, fan: Id, ids: seq<Id>, e: Option<int>) returns (es: seq<Event>)
    requires InPhase(w, fan, Finishing) && AllWait(w, fan, ids, e) && Distinct(ids)
    ensures EnabledRun(w, p, es) && AllSucceed(es)
    ensures var v := Exec(w, p, es);
            (forall id | id in ids :: IsLive(v, id, e)) && OnlyThese(w, v, fan, Elems(ids)) && v.fans == w.fans
    decreases |ids|
  {
    hide EnabledRun, Exec, OnlyThese, Waits;
    es := [];
    if ids == [] {
      NothingRun(w, p, fan);
    } else {
      assert Waits(w, fan, ids[0], e);
      es := FinishesOne(w, p, fan, ids[0], e);
      var v := Exec(w, p, es);
      assert ids == [ids[0]] + ids[1..];
      forall id | id in ids[1..] ensures Waits(v, fan, id, e) {
        OthersLeft(w, v, fan, {ids[0]}, id);
        StillWaits(w, v, fan, id, e);
      }
      var rest := AllFinish(v, p, fan, ids[1..], e);
      OthersLeft(v, Exec(v, p, rest), fan, Elems(ids[1..]), ids[0]);
      OnlyTheseTransitive(w, v, Exec(v, p, rest), fan, {ids[0]}, Elems(ids[1..]));
      assert {ids[0]} + Elems(ids[1..]) == Elems(ids);
      RunAppend(w, p, es, rest);
      es := es + rest;
    }
  }

  lemma FinishesFan(w: World, p: Pools, fan: Id)
    requires InPhase(w, fan, Finishing) && NoClone(w, fan)
    ensures Enabled(w, FinishFanout(fan))
    ensures var v := Apply(w, p, FinishFanout(fan)); v == w.(fans := w.fans - {fan}) && OnlyThese(w, v, fan, {})
  {
    hide AdvanceOp, RemoveRuleStep, RestoreStep, SpawnStep, RestartStep, Run;
  }

  // --- the whole ---

  /** The fan-out of the snapshot can lay its disk where it needs it: there is a file already, or nobody else is about to
      lay one. */
  ghost predicate Stageable(w: World, snapId: Id) {
    && snapId in w.c.t.snapshots
    && var path := w.c.t.snapshots[snapId].bakedPath;
    || path in w.c.host.files
    || (NotStaged(w, path)
        && forall id | id in w.ops && w.ops[id].pc.Copy? && id in w.c.t.sandboxes :: w.c.t.sandboxes[id].rootfsPath != path)
  }

  /** The guest is on the bridge, under the address of its row. */
  predicate OnBridge(w: World, id: Id) {
    Bridged(w.c, id) && AddressOf(w, id) == Some(RowOf(w.c, id).ip)
  }

  lemma FansOut(w: World, p: Pools, fan: Id, snapId: Id)
    requires Reconciled(w) && fan !in w.fans && snapId in w.images && Stageable(w, snapId)
    ensures EnabledRun(w, p, [Fanout(fan, snapId)] + [StageBaked(fan, Done)])
    ensures var v := Exec(w, p, [Fanout(fan, snapId)] + [StageBaked(fan, Done)]);
            && InPhase(v, fan, BringUp) && OnlyThese(w, v, fan, {}) && v.ops == w.ops && v.c.t == w.c.t && v.c.seen == w.c.seen
  {
    hide AdvanceOp, RemoveRuleStep, RestoreStep, SpawnStep, RestartStep, StageStep, UnstageStep, Run, EnabledRun, Exec,
      OnlyThese, InPhase;
    var a := w.(fans := w.fans[fan := Fan(w.c.t.snapshots[snapId], w.images[snapId], false, Staging)]);
    assert Enabled(w, Fanout(fan, snapId)) && Apply(w, p, Fanout(fan, snapId)) == a;
    assert Enabled(a, StageBaked(fan, Done)) && Apply(a, p, StageBaked(fan, Done)) == StageStep(a, fan, Done);
    hide Enabled, Apply;
    Stages(w, a, fan, a.fans[fan]);
    RunOne(a, p, StageBaked(fan, Done));
    RunCons(w, p, Fanout(fan, snapId), [StageBaked(fan, Done)]);
  }

  lemma Stages(w: World, a: World, fan: Id, f: Fan)
    requires a == w.(fans := w.fans[fan := f])
    ensures var v := StageStep(a, fan, Done);
            && InPhase(v, fan, BringUp) && OnlyThese(w, v, fan, {}) && v.ops == w.ops && v.c.t == w.c.t && v.c.seen == w.c.seen
  {
    hide OnlyThese, StageStep;
    StageIsAlone(a, fan);
    FanAlone(w, StageStep(a, fan, Done), fan);
  }

  lemma StageIsAlone(a: World, fan: Id)
    requires fan in a.fans
    ensures var v := StageStep(a, fan, Done);
            && InPhase(v, fan, BringUp) && v == a.(c := v.c, fans := v.fans) && v.fans - {fan} == a.fans - {fan}
            && v.c.t == a.c.t && v.c.stray == a.c.stray && v.c.seen == a.c.seen
  {
  }

  lemma FanAlone(w: World, v: World, fan: Id)
    requires v == w.(c := v.c, fans := v.fans) && v.c.t == w.c.t && v.c.stray == w.c.stray
    requires v.fans - {fan} == w.fans - {fan}
    ensures OnlyThese(w, v, fan, {})
  {
  }

  /** From phase 1 to the end. */
  lemma GoesThrough(w: World, p: Pools, fan: Id, ids: seq<Id>, e: Option<int>) returns (es: seq<Event>)
    requires Inv(w, p) && w.c.stray.taps == {} && InPhase(w, fan, BringUp) && AllFresh(w, ids) && Room(w.c.t, p, |ids|)
    requires NoClone(w, fan)
    ensures EnabledRun(w, p, es) && AllSucceed(es)
    ensures var v := Exec(w, p, es);
            (forall id | id in ids :: IsLive(v, id, e)) && OnlyThese(w, v, fan, Elems(ids)) && fan !in v.fans
  {
    hide Inv, EnabledRun, Exec, Enabled, Apply, OnlyThese, Waits, Room, AllFresh, Reidentified, Spares, IsLive;
    var clones := Elems(ids);
    assert clones + clones == clones;
    FreshOnes(w, ids);
    es := AllPark(w, p, fan, ids, e);
    var v := Exec(w, p, es);
    NoneElse(w, v, fan, ids);
    var unstage := UnstageBaked(fan, Done);
    Unstages(v, p, fan, ids, e);
    ApplyKeeps(v, p, unstage);
    var x := Apply(v, p, unstage);
    Extends(w, v, x, p, fan, clones, {}, es, unstage);
    es := es + [unstage];
    AllStillWait(v, x, fan, ids, e, {});
    var polls := AllPoll(x, p, fan, ids, ids, e);
    RunAppend(w, p, es, polls);
    es := es + polls;
    var y := Exec(x, p, polls);
    OnlyTheseTransitive(w, x, y, fan, clones, clones);
    NoneElse(w, y, fan, ids);
    SettlesFan(y, p, fan, ids);
    var z := Apply(y, p, Settle(fan));
    Extends(w, y, z, p, fan, clones, {}, es, Settle(fan));
    es := es + [Settle(fan)];
    AllStillWait(y, z, fan, ids, e, {});
    var rest := AllFinish(z, p, fan, ids, e);
    RunAppend(w, p, es, rest);
    es := es + rest;
    var u := Exec(z, p, rest);
    OnlyTheseTransitive(w, z, u, fan, clones, clones);
    NoneLeft(w, u, fan, ids, e);
    FinishesFan(u, p, fan);
    StillLive(u, fan, ids, e);
    Extends(w, u, Apply(u, p, FinishFanout(fan)), p, fan, clones, {}, es, FinishFanout(fan));
    es := es + [FinishFanout(fan)];
  }

  lemma Extends(w: World, v: World, x: World, p: Pools, fan: Id, a: set<Id>, b: set<Id>, es: seq<Event>, ev: Event)
    requires EnabledRun(w, p, es) && Exec(w, p, es) == v && Enabled(v, ev) && Apply(v, p, ev) == x
    requires OnlyThese(w, v, fan, a) && OnlyThese(v, x, fan, b) && b <= a
    ensures EnabledRun(w, p, es + [ev]) && Exec(w, p, es + [ev]) == x && OnlyThese(w, x, fan, a)
  {
    hide EnabledRun, Exec, Enabled, Apply, OnlyThese;
    RunOne(v, p, ev);
    RunAppend(w, p, es, [ev]);
    OnlyTheseTransitive(w, v, x, fan, a, b);
    assert a + b == a;
  }

  lemma NoneElse(w: World, v: World, fan: Id, ids: seq<Id>)
    requires OnlyThese(w, v, fan, Elems(ids)) && NoClone(w, fan)
    ensures NoOthers(v, fan, ids)
  {
    forall id | id in v.ops && id !in ids ensures !IsClone(v.ops[id], fan) {
      assert Leaves(w, v, id);
    }
  }

  lemma NoneLeft(w: World, v: World, fan: Id, ids: seq<Id>, e: Option<int>)
    requires OnlyThese(w, v, fan, Elems(ids)) && NoClone(w, fan)
    requires forall id | id in ids :: IsLive(v, id, e)
    ensures NoClone(v, fan)
  {
    NoneElse(w, v, fan, ids);
  }

  lemma StillLive(u: World, fan: Id, ids: seq<Id>, e: Option<int>)
    requires forall id | id in ids :: IsLive(u, id, e)
    ensures forall id | id in ids :: IsLive(u.(fans := u.fans - {fan}), id, e)
  {
  }

  lemma HasImage(w: World, p: Pools, snapId: Id)
    requires Inv(w, p) && Stageable(w, snapId)
    ensures snapId in w.images
  {
    hide CoreInv, LocalInv, FansInv, LooseInv, DisksInv, BrokenInv;
  }

  lemma FreshAndRoom(w: World, v: World, p: Pools, fan: Id, ids: seq<Id>)
    requires OnlyThese(w, v, fan, {}) && v.ops == w.ops && v.c.t == w.c.t && v.c.seen == w.c.seen
    requires AllFresh(w, ids) && Room(w.c.t, p, |ids|)
    ensures AllFresh(v, ids) && Room(v.c.t, p, |ids|) && v.c.stray == w.c.stray
  {
    hide FreshDisk, TapPool, IPPool, PortPool;
    forall id | id in ids ensures Fresh(v, id) {
      assert Fresh(w, id);
    }
  }

  lemma SameOps(w: World, u: World, fan: Id, ids: seq<Id>, e: Option<int>)
    requires OnlyThese(w, u, fan, Elems(ids)) && AllFresh(w, ids) && (forall id | id in ids :: IsLive(u, id, e))
    requires fan !in w.fans && fan !in u.fans
    ensures u.ops == w.ops && u.fans == w.fans
  {
    hide FreshDisk;
    forall j ensures (j in u.ops <==> j in w.ops) && (j in w.ops ==> u.ops[j] == w.ops[j]) {
      if j in ids {
        assert Fresh(w, j) && IsLive(u, j, e);
      } else {
        assert Leaves(w, u, j);
      }
    }
    assert u.fans - {fan} == u.fans && w.fans - {fan} == w.fans;
  }

  lemma LiveIsOnBridge(p: Pools, es: seq<Event>, id: Id, e: Option<int>)
    requires EnabledRun(INIT, p, es) && IsLive(Exec(INIT, p, es), id, e)
    ensures OnBridge(Exec(INIT, p, es), id)
  {
    hide EnabledRun, Exec, RulesOf, Bridged;
    LiveIsComplete(p, es, id);
    BridgeIsSafe(p, es, id, id);
  }

  /** Whenever no row is being reconciled, and whatever else is under way: a fan-out of any number of clones for which
      the pools have room, and whose commands succeed, leads to all of them being live, on the bridge, each under the
      address of its own row and with the deadline that was asked for; and nothing else has changed. */
  lemma FanoutCanSucceed(p: Pools, es: seq<Event>, fan: Id, snapId: Id, ids: seq<Id>, e: Option<int>) returns (fs: seq<Event>)
    requires EnabledRun(INIT, p, es)
    requires var w := Exec(INIT, p, es);
             && Reconciled(w) && NoClone(w, fan) && fan !in w.fans && Stageable(w, snapId)
             && AllFresh(w, ids) && Room(w.c.t, p, |ids|) && w.c.stray.taps == {}
    ensures var w := Exec(INIT, p, es);
            var u := Exec(w, p, fs);
            && EnabledRun(w, p, fs) && AllSucceed(fs)
            && OnlyThese(w, u, fan, Elems(ids)) && u.fans == w.fans && u.ops == w.ops
            && forall id | id in ids ::
                 IsLive(u, id, e) && OnBridge(u, id)
  {
    hide Inv, EnabledRun, Exec, Enabled, Apply, OnlyThese, Room, AllFresh, Stageable, IsLive;
    ReachableInv(p, es);
    var w := Exec(INIT, p, es);
    HasImage(w, p, snapId);
    FansOut(w, p, fan, snapId);
    fs := [Fanout(fan, snapId)] + [StageBaked(fan, Done)];
    var v := Exec(w, p, fs);
    RunKeeps(w, p, fs);
    FreshAndRoom(w, v, p, fan, ids);
    var rest := GoesThrough(v, p, fan, ids, e);
    RunAppend(w, p, fs, rest);
    fs := fs + rest;
    RunAppend(INIT, p, es, fs);
    var u := Exec(w, p, fs);
    OnlyTheseTransitive(w, v, u, fan, {}, Elems(ids));
    assert {} + Elems(ids) == Elems(ids);
    SameOps(w, u, fan, ids, e);
    forall id | id in ids ensures Bridged(u.c, id) && id in u.guests && u.guests[id].memory.ip == Some(RowOf(u.c, id).ip) {
      LiveIsOnBridge(p, es + fs, id, e);
    }
  }
}
