/** No operation goes on for ever: whatever becomes of its commands, a bounded number of them is left to it, and until it
    ends there is always a command for it to take. */
module Termination {
  import opened Wrappers
  import opened Pools
  import opened Tables
  import opened History
  import opened Hosts
  import opened Ledger
  import opened Commands
  import opened Lifecycle
  import opened Safety
  import opened Events
  import opened Runs
  import opened Processes
  import opened Liveness

  /** How many rules a take-down of the sandbox may have to deal with, counted twice for a roll-back before it. */
  function RulesToDrop(c: Core, id: Id): nat {
    |AllRules(c, id)| + |Primary(c, id)|
  }

  function DownBound(op: Op, n: nat): nat {
    match op.pc
    case Undo(todo) => 8 + n + |todo|
    case Halt => 7 + n
    case Lookup => 6 + n
    case Shutdown(todo, _) => 5 + |todo|
    case DropRules(todo, _) => 4 + |todo|
    case RollTap => 3
    case DestroyTap(_) => 3
    case RollDisk => 2
    case DestroyDisk(_) => 2
    case _ => 1
  }

  /** The most commands that an operation may still take; n counts the rules it may have to remove. */
  function Bound(op: Op, n: nat): nat {
    match op.pc
    case Prepare(_) => 28
    case Alloc(_) => 27
    case DropFile => 1
    case Allocate(_) => 4
    case ExposePre(_) => 3
    case ExposeOut(_) => 2
    case Unexpose(_) => 1
    case _ => if GoesUp(op.pc) then 8 + 2 * n + UpRank(op) else DownBound(op, n)
  }

  function StepsLeft(w: World, id: Id): nat {
    if id in w.ops then Bound(w.ops[id], RulesToDrop(w.c, id)) else 0
  }

  lemma UpNextIsLess(op: Op, out: Outcome, primary: set<Rule>, n: nat)
    requires GoesUp(op.pc) && (op.pc.Parked? ==> op.kind.Clone?) && |primary| <= n
    ensures var next := UpNext(op, out, primary); next.GoOn? ==> Bound(op.(pc := next.pc), n) < Bound(op, n)
  {
  }

  lemma DownNextIsLess(op: Op, out: Outcome, primary: set<Rule>, all: set<Rule>)
    requires GoesDown(op.pc)
    ensures var next, n := DownNext(op, out, primary, all), |all| + |primary|;
            next.GoOn? ==> Bound(op.(pc := next.pc), n) < Bound(op, n)
  {
    hide UpRank;
  }

  lemma NextIsLess(c: Core, p: Pools, id: Id, op: Op, out: Outcome)
    requires (op.pc.Parked? ==> op.kind.Clone?) && !op.pc.Alloc?
    ensures var next, n := NextOf(c, p, id, op, out), RulesToDrop(c, id);
            next.GoOn? ==> Bound(op.(pc := next.pc), n) < Bound(op, n)
  {
    hide Registered, Allotted, Primary, AllRules, UpRank;
    if GoesUp(op.pc) {
      UpNextIsLess(op, out, Primary(c, id), RulesToDrop(c, id));
      hide UpNext, Bound;
    } else if GoesDown(op.pc) {
      DownNextIsLess(op, out, Primary(c, id), AllRules(c, id));
      hide DownNext, Bound;
    }
  }

  lemma LessTodoIsLess(op: Op, r: Rule, n: nat)
    requires CanRemove(op.pc, r)
    ensures Bound(op.(pc := LessTodo(op.pc, r)), n) < Bound(op, n)
  {
    hide UpRank;
    var todo := TodoOf(op.pc);
    assert todo == (todo - {r}) + {r};
  }

  // --- one command ---

  /** The rules that a sandbox calls for change only with its row and its ports. */
  lemma SameRulesToDrop(c: Core, d: Core, id: Id)
    requires (id in c.t.sandboxes <==> id in d.t.sandboxes) && d.t.ports == c.t.ports
    requires id in c.t.sandboxes ==> d.t.sandboxes[id] == c.t.sandboxes[id].(pid := d.t.sandboxes[id].pid)
    ensures RulesToDrop(d, id) == RulesToDrop(c, id)
  {
    if id in c.t.sandboxes {
      assert PortKeys(d.t, id) == PortKeys(c.t, id);
      assert ExtraRules(d.t, id) == ExtraRules(c.t, id);
      hide ExtraRules, PrimaryRules;
    }
  }

  /** A command of an operation that goes on leaves its row in place, with the same names. */
  lemma SmallCommand(c: Core, p: Pools, id: Id, op: Op, out: Outcome)
    requires !op.pc.Alloc? && !op.pc.Allocate? && !Exposing(op.pc) && NextOf(c, p, id, op, out).GoOn?
    ensures var d := Run(c, id, CommandOf(c, p, id, op, out));
            && (id in c.t.sandboxes <==> id in d.t.sandboxes) && d.t.ports == c.t.ports
            && (id in c.t.sandboxes ==> d.t.sandboxes[id] == c.t.sandboxes[id].(pid := d.t.sandboxes[id].pid))
  {
    hide Registered, Allotted, Primary, AllRules, RootfsPath, RulesHeld, PreRule, OutRule, WithTap, WithoutTap,
      WithFile, WithoutFile, WithRule, WithoutRule;
  }

  lemma AdvanceLowers(w: World, p: Pools, id: Id, op: Op, out: Outcome)
    requires LocalInv(w, id) && Works(w, id, op) && CanAdvance(w, id, op, out) && !op.pc.Alloc?
    ensures StepsLeft(Apply(w, p, Advance(id, out)), id) < StepsLeft(w, id)
  {
    hide Enabled, Apply, LocalInv, NextOf, CommandOf, ColdStep, UpStep, DownStep, ExposeStep, RulesToDrop, CanAdvance;
    Advances(w, p, id, op, out);
    OnlyClonesPark(w, id, op);
    NextIsLess(w.c, p, id, op, out);
    if NextOf(w.c, p, id, op, out).GoOn? && !op.pc.Allocate? && !Exposing(op.pc) {
      SmallCommand(w.c, p, id, op, out);
      SameRulesToDrop(w.c, Run(w.c, id, CommandOf(w.c, p, id, op, out)), id);
    }
    hide Run;
  }

  lemma OnlyClonesPark(w: World, id: Id, op: Op)
    requires LocalInv(w, id) && Works(w, id, op)
    ensures op.pc.Parked? ==> op.kind.Clone?
  {
    hide GuestInv, MachineInv, StopInv, FullInv, ExposeInv, RowlessInv;
  }

  /** A sandbox without extra ports has two rules. */
  lemma TwoRules(c: Core, id: Id)
    requires PortKeys(c.t, id) == {}
    ensures RulesToDrop(c, id) <= 4
  {
    if id in c.t.sandboxes {
      assert ExtraRules(c.t, id) == {};
      assert AllRules(c, id) == PrimaryRules(c.t, id);
      hide ExtraRules;
      SizeOfTwo(PreRule(c.t.sandboxes[id]), OutRule(c.t.sandboxes[id]));
    }
  }

  lemma SizeOfTwo(a: Rule, b: Rule)
    ensures |{a, b}| <= 2
  {
    assert {a, b} == {a} + {b};
  }

  lemma AllocLowers(w: World, p: Pools, id: Id, op: Op, out: Outcome)
    requires LocalInv(w, id) && Consistent(w.c.t) && Works(w, id, op) && op.pc.Alloc?
    ensures StepsLeft(Apply(w, p, Advance(id, out)), id) < StepsLeft(w, id)
  {
    hide Enabled, Apply, GuestInv, MachineInv, RulesToDrop, Registered, FreshDisk, UpStep, DownStep, ExposeStep,
      AdvanceOp, RootfsPath;
    assert PortKeys(w.c.t, id) == {} by {
      assert id !in w.c.t.sandboxes && forall k | k in w.c.t.ports :: k.0 in w.c.t.sandboxes;
    }
    hide Consistent;
    Advances(w, p, id, op, out);
    var v := ColdStep(w, p, id, op, out);
    assert v.c.t.ports == w.c.t.ports;
    assert PortKeys(v.c.t, id) == PortKeys(w.c.t, id);
    TwoRules(v.c, id);
  }

  lemma DropKeepsTables(c: Core, r: Rule, done: bool)
    ensures DropRule(c, r, done).t == c.t
  {
  }

  lemma RemovalLowers(w: World, p: Pools, id: Id, op: Op, r: Rule, out: Outcome)
    requires Works(w, id, op) && CanRemove(op.pc, r)
    ensures StepsLeft(Apply(w, p, RemoveRule(id, r, out)), id) < StepsLeft(w, id)
  {
    hide RulesToDrop, Bound, LessTodo, AdvanceOp, RestoreStep, SpawnStep, RestartStep, StageStep, UnstageStep,
      SnapshotStep, Thaw, DropRule;
    DropKeepsTables(w.c, r, out.Done?);
    LessTodoIsLess(op, r, RulesToDrop(w.c, id));
    var v := RemoveRuleStep(w, id, op, r, out);
    SameRulesToDrop(w.c, v.c, id);
  }

  predicate OwnCommand(ev: Event, id: Id) {
    (ev.Advance? || ev.RemoveRule?) && ev.id == id
  }

  /** Every command of an operation, however it ends, leaves it fewer. */
  lemma CommandLowers(w: World, p: Pools, ev: Event, id: Id)
    requires Inv(w, p) && Enabled(w, ev) && OwnCommand(ev, id)
    ensures StepsLeft(Apply(w, p, ev), id) < StepsLeft(w, id)
  {
    hide Inv, LocalInv, BrokenInv, Enabled, Apply, StepsLeft, Consistent, BookInv, TapsBalance, FilesBalance,
      RulesBalance;
    OpWorks(w, ev);
    LocalOf(w, p, id);
    CoreOf(w, p);
    IsConsistent(w.c, p);
    var op := w.ops[id];
    if ev.RemoveRule? {
      RemovalLowers(w, p, id, op, ev.rule, ev.out);
    } else if op.pc.Alloc? {
      AllocLowers(w, p, id, op, ev.out);
    } else {
      AdvanceLowers(w, p, id, op, ev.out);
    }
  }

  // --- a run ---

  /** Nothing else lengthens it. */
  lemma OthersKeepSteps(w: World, p: Pools, ev: Event, id: Id)
    requires Inv(w, p) && Enabled(w, ev) && !OwnCommand(ev, id) && !ev.Crash? && id in w.ops
    ensures StepsLeft(Apply(w, p, ev), id) == StepsLeft(w, id) && id in Apply(w, p, ev).ops
  {
    hide Inv, Enabled, Apply, SameButDisk, RulesToDrop, Bound;
    var v := Apply(w, p, ev);
    if Subject(ev) == Some(id) {
      GuestKeepsSteps(w, p, ev, id);
      SameRulesToDrop(w.c, v.c, id);
    } else {
      EventUntouched(w, p, ev, id);
      if id in w.c.t.sandboxes {
        NonInterference(w, p, ev, id);
        SameRules(w.c, v.c, id);
      } else {
        NoRowNoRules(w.c, v.c, id);
      }
    }
  }

  lemma NoRowNoRules(c: Core, d: Core, id: Id)
    requires id !in c.t.sandboxes && id !in d.t.sandboxes
    ensures RulesToDrop(d, id) == RulesToDrop(c, id)
  {
  }

  lemma SameRules(c: Core, d: Core, id: Id)
    requires SameButDisk(c, d, id) && id in c.t.sandboxes
    ensures RulesToDrop(d, id) == RulesToDrop(c, id)
  {
    forall k: (Id, int) | k.0 == id ensures k in c.t.ports <==> k in d.t.ports {
      var gp := k.1;
      assert k == (id, gp) && ((id, gp) in c.t.ports <==> (id, gp) in d.t.ports);
    }
    assert PortKeys(d.t, id) == PortKeys(c.t, id);
    assert ExtraRules(d.t, id) == ExtraRules(c.t, id);
    hide ExtraRules, PrimaryRules, Owns;
  }

  lemma GuestKeepsSteps(w: World, p: Pools, ev: Event, id: Id)
    requires Enabled(w, ev) && !OwnCommand(ev, id) && id in w.ops && Subject(ev) == Some(id)
    ensures Apply(w, p, ev).ops == w.ops && Apply(w, p, ev).c.t == w.c.t
  {
    hide Thaw, AdvanceOp, RestoreStep, SpawnStep, RestartStep, StageStep, UnstageStep, SnapshotStep, RemoveRuleStep,
      Run;
  }

  /** The operation on the sandbox is still under way after each of these events. */
  ghost predicate GoesOn(w: World, p: Pools, es: seq<Event>, id: Id)
    decreases |es|
  {
    id in w.ops && (es == [] || GoesOn(Apply(w, p, es[0]), p, es[1..], id))
  }

  /** How many of these events are commands for the sandbox. */
  function CommandsFor(es: seq<Event>, id: Id): nat {
    if es == [] then 0 else (if OwnCommand(es[0], id) then 1 else 0) + CommandsFor(es[1..], id)
  }

  lemma {:induction false} StepsRunOut(w: World, p: Pools, es: seq<Event>, id: Id)
    requires Inv(w, p) && EnabledRun(w, p, es) && GoesOn(w, p, es, id) && forall e | e in es :: !e.Crash?
    ensures CommandsFor(es, id) + StepsLeft(Exec(w, p, es), id) <= StepsLeft(w, id) && id in Exec(w, p, es).ops
    decreases |es|
  {
    hide Inv, Enabled, Apply, StepsLeft, OwnCommand, Spares;
    if es != [] {
      ApplyKeeps(w, p, es[0]);
      if OwnCommand(es[0], id) {
        CommandLowers(w, p, es[0], id);
      } else {
        OthersKeepSteps(w, p, es[0], id);
      }
      StepsRunOut(Apply(w, p, es[0]), p, es[1..], id);
    }
  }

  /** No operation goes on for ever: from any reachable state, whatever happens besides and however its commands end, the
      operation on a sandbox takes fewer than StepsLeft commands and has then ended, unless the server crashes first. */
  lemma OperationEnds(p: Pools, es: seq<Event>, fs: seq<Event>, id: Id)
    requires EnabledRun(INIT, p, es) && EnabledRun(Exec(INIT, p, es), p, fs) && forall e | e in fs :: !e.Crash?
    ensures GoesOn(Exec(INIT, p, es), p, fs, id) ==> CommandsFor(fs, id) < StepsLeft(Exec(INIT, p, es), id)
  {
    hide Inv, EnabledRun, Exec, GoesOn, RulesToDrop;
    ReachableInv(p, es);
    if GoesOn(Exec(INIT, p, es), p, fs, id) {
      StepsRunOut(Exec(INIT, p, es), p, fs, id);
    }
  }

  predicate IsParked(w: World, id: Id) {
    id in w.ops && w.ops[id].pc.Parked? && w.ops[id].kind.Clone?
  }

  /** And until then it is never stuck: there is a command for it to take; only a clone may have to wait, parked, for the
      other clones of its fan-out. */
  lemma NeverStuck(p: Pools, es: seq<Event>, id: Id) returns (ev: Event)
    requires EnabledRun(INIT, p, es) && id in Exec(INIT, p, es).ops
    ensures var w := Exec(INIT, p, es);
            OwnCommand(ev, id) && (Enabled(w, ev) || IsParked(w, id))
  {
    hide Inv, LocalInv, EnabledRun, Exec;
    ReachableInv(p, es);
    var w := Exec(INIT, p, es);
    LocalOf(w, p, id);
    ev := HasCommand(w, id, w.ops[id]);
  }

  lemma HasCommand(w: World, id: Id, op: Op) returns (ev: Event)
    requires LocalInv(w, id) && Works(w, id, op)
    ensures OwnCommand(ev, id) && (Enabled(w, ev) || (op.pc.Parked? && op.kind.Clone?))
  {
    hide GuestInv, MachineInv, RowlessInv, StopInv, FullInv, Complete, NoRulesAt, Wired, NoRules, RulesWithin, NoPorts,
      Serving;
    if TodoOf(op.pc) != {} && !op.pc.Shutdown? {
      var r :| r in TodoOf(op.pc);
      ev := RemoveRule(id, r, Failed);
    } else {
      ev := Advance(id, if op.pc.Lookup? then Done else Failed);
    }
  }
}
