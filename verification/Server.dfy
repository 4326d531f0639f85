/** The server's handlers (internal/server), each run from beginning to end and proved against what it is for. How a
    command of the host or the guest ends is left open; a request's context may be cancelled at any time. The handlers
    start from a tidy server; the state machine of Lifecycle covers what they do interleaved and after a leak. */
module Server {
  import opened Wrappers
  import opened Pools
  import opened Tables
  import opened History
  import opened Hosts
  import opened Sites
  import opened Fanouts
  import opened Expiry
  import Registry
  import Provisioner
  import T = Tables

  datatype Failure = BadRequest | Missing | Conflict | Refused(error: Error) | Unavailable

  class Server {
    const reg: Registry.Registry
    const host: Provisioner.Provisioner
    var machines: set<Id>
    /** The machines that are raw processes, which Pause rejects. */
    var clones: set<Id>
    ghost var seen: set<Disk>
    /** No request is cancelled and no access to the registry fails. */
    const steady: bool

    function State(): Site
      reads this, reg, host
    {
      Site(reg.State(), host.State(), machines)
    }

    ghost predicate Valid()
      reads this, reg, host
    {
      Registry.ScanEnds(reg.pools) && Tidy(State(), seen, reg.pools, {})
    }

    constructor (pools: Pools, reliable: bool)
      requires Registry.ScanEnds(pools)
      ensures Valid() && fresh(reg) && fresh(host) && State() == Site(EMPTY, EMPTY_HOST, {})
      ensures host.reliable == reliable
    {
      reg := new Registry.Registry(pools);
      host := new Provisioner.Provisioner(reliable);
      machines, clones, seen := {}, {}, {};
    }

    /** Whether the guest or its virtual machine fails at a step. */
    method Trouble() returns (b: bool)
      ensures host.reliable ==> !b
    {
      b := *;
      b := b && !host.reliable;
    }

    /** Whether the request is cancelled by now, or the registry cannot be read or written. */
    method Cancelled() returns (b: bool)
      ensures steady || host.reliable ==> !b
    {
      b := *;
      b := b && !steady && !host.reliable;
    }

    /** The id of a process that was started, or 0. */
    method ProcessId() returns (pid: int)
      ensures host.reliable ==> pid != 0
    {
      pid := *;
      if host.reliable && pid == 0 {
        pid := 1;
      }
    }

    /** Tap, disk and row of a sandbox whose machine never came up. */
    method RollbackPreVM(id: Id, row: Sandbox)
      modifies reg, host
      ensures State() == old(State()).(
                         t := if id in old(reg.sandboxes) then WithoutSandbox(old(reg.State()), id) else old(reg.State()),
                         host := WithoutFile(WithoutTap(old(host.State()), row.tap), row.rootfsPath))
    {
      host.DeleteTap(row.tap);
      host.RemoveFile(row.rootfsPath);
      var _ := reg.Destroy(id);
    }

    method RemoveForwards(ip: string, ports: seq<Registry.PortMapping>)
      requires forall j, k | 0 <= j < k < |ports| :: ports[j].guestPort < ports[k].guestPort
      modifies host
      ensures host.State() == old(host.State()).(rules := old(host.rules) - multiset(MappedRules(ip, ports)))
    {
      var i := 0;
      assert MappedRules(ip, ports[..0]) == {};
      while i < |ports|
        invariant 0 <= i <= |ports|
        invariant host.State() == old(host.State()).(rules := old(host.rules) - multiset(MappedRules(ip, ports[..i])))
      {
        host.RemovePortForwardTo(ports[i].hostPort, ip, ports[i].guestPort);
        MoreMapped(ip, ports, i);
        i := i + 1;
      }
      assert ports[..i] == ports;
    }

    method TakeDown(row: Sandbox, ports: seq<Registry.PortMapping>)
      requires forall j, k | 0 <= j < k < |ports| :: ports[j].guestPort < ports[k].guestPort
      modifies host
      ensures host.State() == Host(
                                old(host.taps) - {row.tap},
                                old(host.rules) - multiset(MappedRules(row.ip, ports))
                                - multiset(PortRules(row.ip, row.hostPort, PRIMARY_PORT)),
                                old(host.files) - {row.rootfsPath})
    {
      RemoveForwards(row.ip, ports);
      host.RemovePortForwardTo(row.hostPort, row.ip, PRIMARY_PORT);
      host.DeleteTap(row.tap);
      host.RemoveFile(row.rootfsPath);
    }

    /** DELETE, and every roll-back under a background context, which nothing cancels. */
    method Destroy(id: Id, background: bool) returns (r: Result<(), Failure>)
      modifies this, reg, host
      ensures seen == old(seen) && clones in {old(clones), old(clones) - {id}}
      ensures steady || host.reliable ==> r == if id in old(reg.sandboxes) then Ok(()) else Err(Missing)
      ensures match r
              case Ok(_) => id in old(reg.sandboxes) && State() == Stripped(old(State()), id)
              case Err(e) =>
                || (e == Missing && id !in old(reg.sandboxes) && State() == old(State()))
                || (e == Unavailable && !background
                    && (State() == old(State())
                        || (id in old(reg.sandboxes) && State() in {Emptied(old(State()), id),
                                                                    EmptiedPrimary(old(State()), id)})))
    {
      hide Emptied, EmptiedPrimary, MappedRules, PortRules;
      var cancelled := Cancelled();
      if cancelled && !background {
        return Err(Unavailable);
      }
      if id !in reg.sandboxes {
        return Err(Missing);
      }
      var row := reg.sandboxes[id];
      ghost var s := State();
      var readFails := Cancelled();
      readFails := readFails && !background;
      var ports := [];
      if !readFails {
        ports := reg.Ports(id);
      }
      machines, clones := machines - {id}, clones - {id};
      TakeDown(row, ports);
      TakenDown(s, id, ports, !readFails);
      var deleteFails := Cancelled();
      if readFails || (deleteFails && !background) {
        return Err(Unavailable);
      }
      var _ := reg.Destroy(id);
      return Ok(());
    }

    method HandleDestroy(id: Id) returns (r: Result<(), Failure>)
      requires Valid()
      modifies this, reg, host
      ensures Valid()
      ensures steady || host.reliable ==> r == if id in old(reg.sandboxes) then Ok(()) else Err(Missing)
      ensures r.Ok? ==> id in old(reg.sandboxes) && Absent(State(), id, old(reg.sandboxes)[id])
      ensures match r
              case Ok(_) => id in old(reg.sandboxes) && State() == Stripped(old(State()), id)
              case Err(e) =>
                || (e == Missing && id !in old(reg.sandboxes) && State() == old(State()))
                || (e == Unavailable && State().t == old(State()).t
                    && (State() == old(State()) || (id in State().t.sandboxes
                                                    && Stripped(State(), id) == Stripped(old(State()), id))))
    {
      ghost var s := State();
      r := Destroy(id, false);
      hide Tidy, Stripped, Emptied, EmptiedPrimary, Absent;
      if id in s.t.sandboxes {
        StrippedIsAbsent(s, seen, reg.pools, {}, id);
        StrippedIsTidy(s, seen, reg.pools, {}, id);
        EmptiedIsTidy(s, seen, reg.pools, id);
        EmptiedPrimaryIsTidy(s, seen, reg.pools, id);
      }
    }

    // --- create and restore ---

    /** The roll-back of a sandbox that was accepted in state s. */
    method Undo(id: Id, row: Sandbox, ghost s: Site, ghost rest: Residue)
      requires Clear(s, id, row) && rest.files == {} && rest.ports == map[]
      requires reg.State() == WithSandbox(s.t, id, row) && machines == s.machines
      requires host.taps - {row.tap} == s.host.taps - {row.tap}
      requires host.files - {row.rootfsPath} == s.host.files - {row.rootfsPath}
      requires host.rules == s.host.rules + rest.rules
      modifies reg, host
      ensures State() == After(s, rest)
    {
      RollbackPreVM(id, row);
      RolledBack(s, id, row, State(), rest);
    }

    /** From the tap to the agent: what create and restore do once row and disk are there. */
    method Boot(id: Id, row: Sandbox, ghost s: Site) returns (r: Result<Sandbox, Failure>, ghost rest: Residue)
      requires Clear(s, id, row) && State() == Prepared(s, id, row)
      modifies this, reg, host
      ensures seen == old(seen)
      ensures host.reliable ==> r.Ok?
      ensures match r
              case Ok(up) => up == row.(pid := up.pid) && up.pid != 0 && State() == Furnished(s, id, up) && rest == NOTHING
              case Err(e) => e == Unavailable && State() == After(s, rest) && rest in {NOTHING, HalfForward(row)}
    {
      hide Furnished, After, Stripped;
      rest := NOTHING;
      var tap := host.CreateTap(row.tap);
      var pid := ProcessId();
      if !tap.Done? || pid == 0 {
        // no tap, or no running machine with a process id
        Undo(id, row, s, NOTHING);
        return Err(Unavailable), rest;
      }
      r, rest := Connect(id, row, pid, s);
      if r.Ok? {
        var silent := Trouble();
        if silent {
          var _ := Destroy(id, true);
          StripUndoesFurnish(s, id, r.value);
          AfterNothing(s);
          return Err(Unavailable), rest;
        }
      }
    }

    /** A forward is taken back; one that broke off half-way leaves its first rule. */
    method Unforward(row: Sandbox, forward: Outcome, ghost before: multiset<Rule>) returns (ghost rest: Residue)
      requires match forward
               case Done => host.rules == before + multiset(PortRules(row.ip, row.hostPort, PRIMARY_PORT))
               case Half => host.rules == before + HalfForward(row).rules
               case Failed => host.rules == before
      modifies host
      ensures rest == if forward.Half? then HalfForward(row) else NOTHING
      ensures host.State() == old(host.State()).(rules := before + rest.rules)
    {
      hide PortRules;
      rest := if forward.Half? then HalfForward(row) else NOTHING;
      if forward.Done? {
        host.RemovePortForwardTo(row.hostPort, row.ip, PRIMARY_PORT);
      }
    }

    /** The machine runs: port forward, process id, machine map. */
    method Connect(id: Id, row: Sandbox, pid: int, ghost s: Site) returns (r: Result<Sandbox, Failure>, ghost rest: Residue)
      requires Clear(s, id, row) && pid != 0
      requires State() == Prepared(s, id, row).(host := WithTap(WithFile(s.host, row.rootfsPath), row.tap, true))
      modifies this, reg, host
      ensures seen == old(seen)
      ensures host.reliable ==> r.Ok?
      ensures match r
              case Ok(up) => up == row.(pid := pid) && State() == Furnished(s, id, up) && rest == NOTHING && id in reg.sandboxes
              case Err(e) => e == Unavailable && State() == After(s, rest) && rest in {NOTHING, HalfForward(row)}
    {
      hide Furnished, After, WithPid, PortRules, Clear;
      rest := NOTHING;
      var forward := host.AddPortForwardTo(row.hostPort, row.ip, PRIMARY_PORT);
      var cancelled := Cancelled();
      if !forward.Done? || cancelled {
        rest := Unforward(row, forward, s.host.rules);
        Undo(id, row, s, rest);
        return Err(Unavailable), rest;
      }
      var _ := reg.FinishStart(id, pid);
      machines := machines + {id};
      Connected(s, id, row, pid, State());
      return Ok(row.(pid := pid)), rest;
    }

    /** POST /sandboxes, id being the fresh UUID. A failure at any point leaves registry, host and machines as they
        were, but for a copy or a port forward that broke off half-way. */
    method HandleCreate(id: Id, timeoutSec: int, now: int) returns (r: Result<Sandbox, Failure>, ghost rest: Residue)
      requires Valid() && FreshDisk(seen, id)
      modifies this, reg, host
      ensures rest == NOTHING ==> Valid()
      ensures host.reliable && timeoutSec >= 0 ==>
                var c := T.Create(old(reg.State()), reg.pools, id, RootfsPath(id), Deadline(now, timeoutSec));
                if c.Ok? then r.Ok? else r == Err(Refused(c.error))
      ensures r.Ok? ==> Present(State(), id, r.value) && Timed(r.value, now, timeoutSec)
      ensures var c := T.Create(old(reg.State()), reg.pools, id, RootfsPath(id), Deadline(now, timeoutSec));
              match r
              case Ok(up) => timeoutSec >= 0 && c == Ok(up.(pid := 0)) && rest == NOTHING
                             && State() == Furnished(old(State()), id, up)
              case Err(e) =>
                && State() == After(old(State()), rest)
                && (e == BadRequest <==> timeoutSec < 0)
                && (e.Refused? ==> c == Err(e.error) && rest == NOTHING)
                && (rest == NOTHING || (rest == HalfCopy(RootfsPath(id)) || (c.Ok? && rest == HalfForward(c.value))))
    {
      ghost var s := State();
      rest := NOTHING;
      hide Tidy, BookInv, T.Create, RootfsPath, FreshDisk, Present, Furnished, Timed, Deadline;
      AfterNothing(s);
      if timeoutSec < 0 {
        return Err(BadRequest), rest;
      }
      var path := RootfsPath(id);
      var copy := host.CopyFile(path);
      if !copy.Done? {
        rest := if copy.Half? then HalfCopy(path) else NOTHING;
        return Err(Unavailable), rest;
      }
      FreshHasNoFile(s, seen, reg.pools, id);
      var cancelled := Cancelled();
      if cancelled {
        host.RemoveFile(path);
        assert State() == s;
        return Err(Unavailable), rest;
      }
      var c := reg.Create(id, path, Deadline(now, timeoutSec));
      if c.Err? {
        host.RemoveFile(path);
        assert State() == s;
        return Err(Refused(c.error)), rest;
      }
      CreatedIsAcceptable(s, seen, reg.pools, {}, id, Deadline(now, timeoutSec));
      ghost var before := seen;
      seen := seen + {DiskOf(c.value)};
      r, rest := Boot(id, c.value, s);
      Settle(s, before, reg.pools, id, c.value);
      if r.Ok? {
        FurnishedIsPresent(s, id, r.value);
        DeadlineIsKept(r.value, now, timeoutSec);
      }
    }

    /** POST /snapshots/{id}/restore, id being the fresh UUID: the row first, then the disk. */
    method HandleRestore(snapId: Id, id: Id, timeoutSec: int, now: int) returns (r: Result<Sandbox, Failure>, ghost rest: Residue)
      requires Valid()
      modifies this, reg, host
      ensures rest == NOTHING ==> Valid()
      ensures snapId !in old(reg.snapshots) ==> r == Err(Missing)
      ensures steady && r == Err(Missing) ==> snapId !in old(reg.snapshots)
      ensures r == Err(BadRequest) ==> snapId in old(reg.snapshots) && timeoutSec < 0
      ensures snapId in old(reg.snapshots) && timeoutSec < 0 ==> r in {Err(BadRequest), Err(Missing)}
      ensures r.Err? ==> State() == After(old(State()), rest)
      ensures r == Err(Missing) ==> rest == NOTHING
      ensures host.reliable && snapId in old(reg.snapshots) ==>
                var c := Restored(old(reg.State()), reg.pools, id, old(reg.snapshots)[snapId], Deadline(now, timeoutSec));
                if timeoutSec < 0 then r == Err(BadRequest) else if c.Ok? then r.Ok? else r == Err(Refused(c.error))
      ensures r.Ok? ==> Present(State(), id, r.value) && Timed(r.value, now, timeoutSec)
      ensures r.Ok? ==>
                && snapId in old(reg.snapshots) && r.value.rootfsPath == old(reg.snapshots)[snapId].bakedPath
                && r.value.tap == old(reg.snapshots)[snapId].tap && r.value.ip == old(reg.snapshots)[snapId].ip
      ensures snapId in old(reg.snapshots) ==>
                var c := Restored(old(reg.State()), reg.pools, id, old(reg.snapshots)[snapId], Deadline(now, timeoutSec));
                match r
                case Ok(up) => c == Ok(up.(pid := 0)) && rest == NOTHING && State() == Furnished(old(State()), id, up)
                case Err(e) => (e.Refused? ==> c == Err(e.error) && rest == NOTHING)
                               && (rest == NOTHING || (c.Ok? && rest == HalfForward(c.value)))
    {
      ghost var s := State();
      rest := NOTHING;
      hide Tidy, BookInv, T.CreateRestore, Present, Furnished, Timed, Deadline, TapHeld, AddressHeld, PortsExhausted,
        LeastFreePort;
      AfterNothing(s);
      var unread := Cancelled();
      if unread || snapId !in reg.snapshots {
        return Err(Missing), rest;
      }
      if timeoutSec < 0 {
        return Err(BadRequest), rest;
      }
      var snap := reg.snapshots[snapId];
      var cancelled := Cancelled();
      if cancelled {
        return Err(Unavailable), rest;
      }
      var c := reg.CreateRestore(id, snap.bakedPath, snap.tap, snap.ip, Deadline(now, timeoutSec));
      if c.Err? {
        return Err(Refused(c.error)), rest;
      }
      SnapshotIsSeen(s, seen, reg.pools, snapId);
      RestoredIsAcceptable(s, seen, reg.pools, id, snap, Deadline(now, timeoutSec));
      ghost var before := seen;
      seen := seen + {DiskOf(c.value)};
      var copy := host.CopyFile(snap.bakedPath);
      if !copy.Done? {
        Undo(id, c.value, s, NOTHING);
        r := Err(Unavailable);
      } else {
        r, rest := Boot(id, c.value, s);
      }
      Settle(s, before, reg.pools, id, c.value);
      if r.Ok? {
        RestoredIsLeast(s.t, reg.pools, id, snap.bakedPath, snap.tap, snap.ip, Deadline(now, timeoutSec));
        FurnishedIsPresent(s, id, r.value);
        DeadlineIsKept(r.value, now, timeoutSec);
      }
    }

    // --- snapshots ---

    /** POST /sandboxes/{id}/snapshot, snapId being the fresh UUID. The snapshot records where the source's disk, tap
        and address are; the source goes on unchanged, and so does everything else when a step fails. A clone cannot be
        paused. A first read that fails on a cancelled request is answered like an unknown id, here and below. */
    method HandleSnapshot(id: Id, snapId: Id, frozenPath: string) returns (r: Result<Snapshot, Failure>)
      requires Valid() && snapId !in reg.snapshots
      modifies reg
      ensures Valid()
      ensures id !in old(reg.sandboxes) ==> r == Err(Missing)
      ensures steady && r == Err(Missing) ==> id !in old(reg.sandboxes)
      ensures r == Err(Conflict) ==> id in old(reg.sandboxes) && id !in machines
      ensures id in old(reg.sandboxes) && id !in machines ==> r in {Err(Conflict), Err(Missing)}
      ensures r.Err? ==> State() == old(State())
      ensures r.Ok? ==> id !in clones
      ensures host.reliable ==> (r.Ok? <==> id in old(reg.sandboxes) && id in machines && id !in clones)
      ensures r.Ok? ==>
                var row := old(reg.sandboxes)[id];
                && reg.snapshots == old(reg.snapshots)[snapId := Snapshot(id, row.tap, row.ip, frozenPath, row.rootfsPath)]
                && reg.sandboxes == old(reg.sandboxes) && reg.sandboxPorts == old(reg.sandboxPorts)
      ensures r.Ok? ==>
                && BakedDisk(r.value) == DiskOf(old(reg.sandboxes)[id]) && r.value.sourceId == id
                && r.value.frozenPath == frozenPath
                && State() == old(State()).(t := WithSnapshot(old(reg.State()), snapId, r.value)) && snapId in reg.snapshots
    {
      ghost var s := State();
      hide Tidy;
      var cancelled := Cancelled();
      if cancelled || id !in reg.sandboxes {
        return Err(Missing);
      }
      var row := reg.sandboxes[id];
      if id !in machines {
        return Err(Conflict);
      }
      var failed := Trouble();
      if id in clones || failed {
        // it cannot be paused, or writing its image or copying its disk fails: the guest resumes, and the snapshot
        // directory is removed
        return Err(Unavailable);
      }
      var snap := Snapshot(id, row.tap, row.ip, frozenPath, row.rootfsPath);
      var _ := reg.CreateSnapshot(snapId, snap);
      SnapshotIsTidy(s, seen, reg.pools, id, snapId, snap);
      return Ok(snap);
    }

    // --- ports ---

    /** POST /sandboxes/{id}/ports. A port that is mapped keeps its mapping; a new one gets a free host port and its
        two rules, or everything stays as it was, but for a forward that broke off half-way and for a row that could
        not be withdrawn because the request was cancelled. */
    method HandleExposePort(id: Id, guestPort: int) returns (r: Result<int, Failure>, ghost rest: Residue)
      requires Valid()
      modifies this, reg, host
      ensures rest == NOTHING ==> Valid()
      ensures r == Err(BadRequest) <==> !(1 <= guestPort <= 65535)
      ensures 1 <= guestPort <= 65535 && id !in old(reg.sandboxes) ==> r == Err(Missing)
      ensures r == Err(Missing) ==> 1 <= guestPort <= 65535 && rest == NOTHING
      ensures r.Err? ==> State() == After(old(State()), rest)
      ensures r.Ok? ==> id in old(reg.sandboxes) && rest == NOTHING
      ensures steady ==> rest.ports == map[] && (r == Err(Missing) ==> id !in old(reg.sandboxes))
      ensures host.reliable && 1 <= guestPort <= 65535 && id in old(reg.sandboxes) ==>
                if guestPort == PRIMARY_PORT then r.Ok?
                else if (id, guestPort) in old(reg.sandboxPorts) || PortLeft(old(reg.State()), reg.pools)
                then r.Ok?
                else r == Err(Refused(PortPoolExhausted))
      ensures r.Ok? && guestPort != PRIMARY_PORT && (id, guestPort) !in old(reg.sandboxPorts) ==>
                LeastFreePort(old(reg.State()), reg.pools, r.value) && Forwarded(State(), id, guestPort, r.value)
      ensures id in old(reg.sandboxes) ==>
                if guestPort == PRIMARY_PORT then
                  r in {Ok(old(reg.sandboxes)[id].hostPort), Err(Missing)} && State() == old(State())
                else if (id, guestPort) in old(reg.sandboxPorts) then
                  (r.Ok? ==> r.value == old(reg.sandboxPorts)[(id, guestPort)]) && State() == old(State())
                else
                  var a := T.AddPort(old(reg.State()), reg.pools, id, guestPort);
                  match r
                  case Ok(hp) => a == Ok(hp) && State() == Exposed(old(State()), id, guestPort, hp)
                  case Err(e) =>
                    && (e.Refused? ==> a == Err(e.error) && rest == NOTHING)
                    && (rest == NOTHING || (a.Ok? && rest in FailedExposures(old(reg.sandboxes)[id].ip, id, guestPort, a.value)))
    {
      ghost var s := State();
      rest := NOTHING;
      hide Tidy, T.AddPort, LeastFreePort, Forwarded, Exposed, PortLeft, FailedExposures;
      AfterNothing(s);
      if guestPort < 1 || guestPort > 65535 {
        return Err(BadRequest), rest;
      }
      var cancelled := Cancelled();
      if cancelled || id !in reg.sandboxes {
        return Err(Missing), rest;
      }
      var row := reg.sandboxes[id];
      if guestPort == PRIMARY_PORT {
        return Ok(row.hostPort), rest;
      }
      var readFails := Cancelled();
      if readFails {
        return Err(Unavailable), rest;
      }
      var existing := reg.Ports(id);
      var i := 0;
      while i < |existing|
        invariant 0 <= i <= |existing|
        invariant forall j | 0 <= j < i :: existing[j].guestPort != guestPort
      {
        if existing[i].guestPort == guestPort {
          return Ok(existing[i].hostPort), rest;
        }
        i := i + 1;
      }
      assert (id, guestPort) !in reg.sandboxPorts;
      r, rest := ExposeNew(id, guestPort, row);
    }

    method ExposeNew(id: Id, guestPort: int, row: Sandbox) returns (r: Result<int, Failure>, ghost rest: Residue)
      requires Valid() && id in reg.sandboxes && reg.sandboxes[id] == row && (id, guestPort) !in reg.sandboxPorts
      modifies this, reg, host
      ensures rest == NOTHING ==> Valid()
      ensures steady ==> rest.ports == map[]
      ensures host.reliable ==>
                if PortLeft(old(reg.State()), reg.pools) then r.Ok?
                else r == Err(Refused(PortPoolExhausted))
      ensures r.Ok? ==> LeastFreePort(old(reg.State()), reg.pools, r.value) && Forwarded(State(), id, guestPort, r.value)
      ensures var a := T.AddPort(old(reg.State()), reg.pools, id, guestPort);
              match r
              case Ok(hp) => a == Ok(hp) && State() == Exposed(old(State()), id, guestPort, hp) && rest == NOTHING
              case Err(e) =>
                && State() == After(old(State()), rest)
                && e !in {BadRequest, Missing}
                && (e.Refused? ==> a == Err(e.error) && rest == NOTHING)
                && (rest == NOTHING || (a.Ok? && rest in FailedExposures(row.ip, id, guestPort, a.value)))
    {
      ghost var s := State();
      rest := NOTHING;
      hide Tidy, T.AddPort, PortRules, LeastFreePort, Forwarded, PortLeft, PortsExhausted;
      AfterNothing(s);
      ExposedIsTidy(s, seen, reg.pools, id, guestPort);
      RoomToExpose(s, seen, reg.pools, id, guestPort);
      AllottedIsLeast(s.t, reg.pools, id, guestPort);
      var a := reg.AddPort(id, guestPort);
      if a.Err? {
        return Err(Refused(a.error)), rest;
      }
      var forward := host.AddPortForwardTo(a.value, row.ip, guestPort);
      if forward.Done? {
        ExposedIsForwarded(s, id, guestPort, a.value);
        return Ok(a.value), rest;
      }
      if forward.Half? {
        rest := rest.(rules := multiset{Rule(Prerouting, a.value, row.ip, guestPort)});
      }
      var cancelled := Cancelled();
      if cancelled {
        rest := rest.(ports := map[(id, guestPort) := a.value]);
        assert s.t.ports + rest.ports == s.t.ports[(id, guestPort) := a.value];
      } else {
        reg.DeletePort(id, guestPort);
        assert s.t.ports[(id, guestPort) := a.value] - {(id, guestPort)} == s.t.ports;
      }
      return Err(Unavailable), rest;
    }

    /** GET /sandboxes/{id}/ports: the primary port first, then every extra port once, by guest port. */
    method HandleListPorts(id: Id) returns (r: Result<seq<Registry.PortMapping>, Failure>)
      ensures id !in reg.sandboxes ==> r == Err(Missing)
      ensures r.Err? ==> r in {Err(Missing), Err(Unavailable)}
      ensures (steady || host.reliable) && id in reg.sandboxes ==> r.Ok?
      ensures r.Ok? ==>
                && |r.value| > 0 && r.value[0] == Registry.PortMapping(PRIMARY_PORT, reg.sandboxes[id].hostPort)
                && (forall i, j | 1 <= i < j < |r.value| :: r.value[i].guestPort < r.value[j].guestPort)
                && (forall m :: m in r.value[1..] <==> (id, m.guestPort) in reg.sandboxPorts
                                                       && reg.sandboxPorts[(id, m.guestPort)] == m.hostPort)
    {
      var cancelled := Cancelled();
      var readFails := Cancelled();
      if cancelled || id !in reg.sandboxes {
        return Err(Missing);
      }
      if readFails {
        return Err(Unavailable);
      }
      var extra := reg.Ports(id);
      var out := [Registry.PortMapping(PRIMARY_PORT, reg.sandboxes[id].hostPort)] + extra;
      assert out[1..] == extra;
      forall m: Registry.PortMapping | (id, m.guestPort) in reg.sandboxPorts
                                       && reg.sandboxPorts[(id, m.guestPort)] == m.hostPort ensures m in extra {
        assert m == Registry.PortMapping(m.guestPort, reg.sandboxPorts[(id, m.guestPort)]);
      }
      return Ok(out);
    }

    // --- deadlines ---

    /** POST /sandboxes/{id}/timeout: a new deadline, or none for 0. A request that is cancelled before the update is
        answered like an unknown id; one that is cancelled after it gets an error although the deadline is set. */
    method HandleSetTimeout(id: Id, timeoutSec: int, now: int) returns (r: Result<(), Failure>)
      requires Valid()
      modifies reg
      ensures Valid()
      ensures r == Err(BadRequest) <==> timeoutSec < 0
      ensures timeoutSec >= 0 && id !in old(reg.sandboxes) ==> r == Err(Missing)
      ensures r in {Err(BadRequest), Err(Missing)} ==> State() == old(State())
      ensures (steady || host.reliable) && timeoutSec >= 0 && id in old(reg.sandboxes) ==> r.Ok?
      ensures r !in {Err(BadRequest), Err(Missing)} ==>
                && id in old(reg.sandboxes) && id in reg.sandboxes && Timed(reg.sandboxes[id], now, timeoutSec)
                && reg.sandboxes[id] == old(reg.sandboxes)[id].(expiresAt := Deadline(now, timeoutSec))
                && reg.sandboxes - {id} == old(reg.sandboxes) - {id}
                && reg.sandboxPorts == old(reg.sandboxPorts) && reg.snapshots == old(reg.snapshots)
      ensures r !in {Err(BadRequest), Err(Missing)} ==>
                r in {Ok(()), Err(Unavailable)}
                && State() == old(State()).(t := WithExpiry(old(reg.State()), id, Deadline(now, timeoutSec)))
    {
      ghost var s := State();
      hide Tidy, Timed, Deadline;
      if timeoutSec < 0 {
        return Err(BadRequest);
      }
      var cancelled := Cancelled();
      if cancelled || id !in reg.sandboxes {
        return Err(Missing);
      }
      var _ := reg.SetExpiry(id, Deadline(now, timeoutSec));
      TimeoutIsTidy(s, seen, reg.pools, id, Deadline(now, timeoutSec));
      RowsRun(s, seen, reg.pools);
      DeadlineIsKept(reg.sandboxes[id], now, timeoutSec);
      var unread := Cancelled();
      return if unread then Err(Unavailable) else Ok(());
    }

    /** One tick of the reaper: the sandboxes that are listed at this time are destroyed, and no others; none if the
        query for them fails. */
    method Reap(now: int) returns (queried: bool)
      requires Valid()
      modifies this, reg, host
      ensures Valid()
      ensures steady || host.reliable ==> queried
      ensures !queried ==> State() == old(State())
      ensures queried ==> forall id :: id in reg.sandboxes <==> id in old(reg.sandboxes) && !Listed(old(reg.sandboxes)[id], now)
      ensures forall id | id in reg.sandboxes :: reg.sandboxes[id] == old(reg.sandboxes)[id]
    {
      hide Tidy, Stripped, Emptied, EmptiedPrimary;
      var failed := Cancelled();
      queried := !failed;
      if failed {
        return;
      }
      var todo := reg.Expired(Unix(now));
      ghost var expired := todo;
      while todo != {}
        invariant Valid() && todo <= expired && reg.sandboxes == old(reg.sandboxes) - (expired - todo)
        decreases todo
      {
        var id :| id in todo;
        StrippedIsTidy(State(), seen, reg.pools, {}, id);
        StrippedKeeps(State(), id);
        var _ := Destroy(id, true);
        todo := todo - {id};
      }
    }

    // --- reconcile and shutdown ---

    /** On startup every row is stale and nothing is driven by the server. When all went well, no row and no host
        object is left; otherwise some rows stay, each as it was, all of them if they could not be listed. */
    method Reconcile() returns (complete: bool)
      requires Valid() && machines == {}
      modifies this, reg, host
      ensures Valid() && machines == {}
      ensures steady || host.reliable ==> complete
      ensures complete ==> State() == Site(Tables(map[], map[], old(reg.snapshots)), EMPTY_HOST, {})
      ensures reg.snapshots == old(reg.snapshots)
      ensures forall id | id in reg.sandboxes :: id in old(reg.sandboxes) && reg.sandboxes[id] == old(reg.sandboxes)[id]
    {
      hide Tidy;
      var unlisted := Cancelled();
      complete := !unlisted;
      if unlisted {
        // the rows could not be listed
        return;
      }
      var rows := reg.sandboxes;
      var todo := rows.Keys;
      while todo != {}
        invariant todo <= rows.Keys && Valid() && machines == {}
        invariant complete ==> reg.sandboxes.Keys <= todo
        invariant steady || host.reliable ==> complete
        invariant todo <= reg.sandboxes.Keys
        invariant reg.snapshots == old(reg.snapshots)
        invariant forall id | id in reg.sandboxes :: id in rows && reg.sandboxes[id] == rows[id]
        decreases todo
      {
        var id :| id in todo;
        var r := ReconcileRow(id);
        todo := todo - {id};
        complete := complete && r;
      }
      if complete {
        NoRowsNoObjects(State(), seen, reg.pools);
      }
    }

    /** The context of a reconciliation that was cancelled when the ports were read stays cancelled. */
    method ReconcileRow(id: Id) returns (gone: bool)
      requires Valid() && id in reg.sandboxes && machines == {}
      modifies reg, host
      ensures Valid()
      ensures steady || host.reliable ==> gone
      ensures if gone then State() == Stripped(old(State()), id)
              else State() in {Emptied(old(State()), id), EmptiedPrimary(old(State()), id)}
    {
      ghost var s := State();
      hide Tidy, Emptied, EmptiedPrimary, MappedRules, PortRules;
      EmptiedIsTidy(s, seen, reg.pools, id);
      EmptiedPrimaryIsTidy(s, seen, reg.pools, id);
      StrippedIsTidy(s, seen, reg.pools, {}, id);
      var row := reg.sandboxes[id];
      var readFails := Cancelled();
      var deleteFails := Cancelled();
      var ports := [];
      if !readFails {
        ports := reg.Ports(id);
      }
      TakeDown(row, ports);
      TakenDown(s, id, ports, !readFails);
      assert s.machines - {id} == machines;
      if readFails || deleteFails {
        return false;
      }
      var _ := reg.Destroy(id);
      return true;
    }

    /** On stop every sandbox that the server drives is destroyed; under a background context that always succeeds. */
    method ShutdownAll()
      requires Valid()
      modifies this, reg, host
      ensures Valid() && machines == {}
      ensures reg.sandboxes == old(reg.sandboxes) - old(machines)
      ensures forall tap | tap in host.taps :: exists id :: id in reg.sandboxes && reg.sandboxes[id].tap == tap
    {
      hide Tidy, Stripped, Emptied, EmptiedPrimary;
      var todo := machines;
      while todo != {}
        invariant todo == machines && Valid() && todo <= old(machines)
        invariant reg.sandboxes == old(reg.sandboxes) - (old(machines) - todo)
        decreases todo
      {
        var id :| id in todo;
        MachinesHaveRows(State(), seen, reg.pools);
        StrippedIsTidy(State(), seen, reg.pools, {}, id);
        StrippedKeeps(State(), id);
        var _ := Destroy(id, true);
        todo := todo - {id};
      }
      TidyTaps(State(), seen, reg.pools);
    }

    // --- fan-out; its parallel clones one after the other ---

    /** Row, disk, tap off the bridge, and a machine that has resumed; all or nothing. */
    method BringUpClone(id: Id, expiresAt: Option<int>, ghost loose: set<string>) returns (r: Option<Sandbox>)
      requires Registry.ScanEnds(reg.pools) && Tidy(State(), seen, reg.pools, loose)
      requires FreshDisk(seen, id) && RootfsPath(id) !in loose
      modifies this, reg, host
      ensures Tidy(State(), seen, reg.pools, loose)
      ensures forall j | j != id && FreshDisk(old(seen), j) :: FreshDisk(seen, j)
      ensures old(seen) <= seen
      ensures host.reliable && T.Create(old(reg.State()), reg.pools, id, RootfsPath(id), expiresAt).Ok? ==> r.Some?
      ensures match r
              case None => State() == old(State())
              case Some(row) =>
                && T.Create(old(reg.State()), reg.pools, id, RootfsPath(id), expiresAt) == Ok(row)
                && row.rootfsPath == RootfsPath(id) && Acceptable(old(State()), old(seen), reg.pools, id, row)
                && State() == Raised(old(State()), id, row, false)
    {
      ghost var s, before := State(), seen;
      hide Tidy, BookInv, T.Create, RootfsPath, FreshDisk, Acceptable;
      var path := RootfsPath(id);
      var cancelled := Cancelled();
      if cancelled {
        return None;
      }
      var c := reg.Create(id, path, expiresAt);
      if c.Err? {
        return None;
      }
      CreatedIsAcceptable(s, before, reg.pools, loose, id, expiresAt);
      var row := c.value;
      seen := seen + {DiskOf(row)};
      OtherDisksFresh(before, id, row);
      RefusedBook(s, before, reg.pools, id, row);
      TidyLater(s, before, seen, reg.pools, loose);
      RaisedIsTidy(s, before, reg.pools, loose, id, row, false);
      AcceptedIsClear(s, before, reg.pools, id, row);
      var up := Resume(id, row, s);
      r := if up then Some(row) else None;
    }

    method Resume(id: Id, row: Sandbox, ghost s: Site) returns (ok: bool)
      requires Clear(s, id, row) && State() == s.(t := WithSandbox(s.t, id, row))
      modifies reg, host
      ensures State() == if ok then Raised(s, id, row, false) else s
      ensures host.reliable ==> ok
    {
      AfterNothing(s);
      hide After;
      var copy := host.CopyFile(row.rootfsPath);
      if !copy.Done? {
        Undo(id, row, s, NOTHING);
        return false;
      }
      var tap := host.CreateTapUnbridged(row.tap);
      var failed := Trouble();
      if !tap.Done? || failed {
        Undo(id, row, s, NOTHING);
        return false;
      }
      return true;
    }

    /** The clone's process id, or 0 when it could not be brought onto the network and was destroyed. */
    method FinishClone(id: Id, row: Sandbox) returns (pid: int)
      requires Valid() && Parked(State(), id, row)
      modifies this, reg, host
      ensures Valid() && seen == old(seen)
      ensures if pid != 0 then clones == old(clones) + {id} else old(clones) - {id} <= clones
      ensures State() == if pid != 0 then Joined(old(State()), id, row.(pid := pid)) else Stripped(old(State()), id)
      ensures host.reliable ==> pid != 0
    {
      ghost var s := State();
      hide Tidy, Stripped, Joined;
      StrippedIsTidy(s, seen, reg.pools, {}, id);
      pid := ProcessId();
      JoinedIsTidy(s, seen, reg.pools, {}, id, row.(pid := pid));
      var ok := Bridge(id, row, pid);
      if !ok {
        var _ := Destroy(id, true);
        pid := 0;
      }
    }

    /** Whatever is in place when this fails, destroying the clone removes all of it. */
    method Bridge(id: Id, row: Sandbox, pid: int) returns (ok: bool)
      requires Parked(State(), id, row)
      modifies this, reg, host
      ensures seen == old(seen) && id in reg.sandboxes && clones in {old(clones), old(clones) + {id}}
      ensures (ok ==> id in clones) && (host.reliable && pid != 0 ==> ok)
      ensures if ok then pid != 0 && State() == Joined(old(State()), id, row.(pid := pid))
              else Stripped(State(), id) == Stripped(old(State()), id)
    {
      ghost var s := State();
      hide Stripped, Parked;
      StrippedPart(s, id, row, s);
      if pid == 0 {
        return false;
      }
      ParkedRow(s, id, row);
      ok := host.AttachTapToBridge(row.tap);
      if !ok {
        return;
      }
      var forward := host.AddPortForwardTo(row.hostPort, row.ip, PRIMARY_PORT);
      var cancelled := Cancelled();
      StrippedPart(s, id, row, State());
      if !forward.Done? || cancelled {
        return false;
      }
      var _ := reg.FinishStart(id, pid);
      machines, clones := machines + {id}, clones + {id};
      StrippedPart(s, id, row, State());
      var silent := Trouble();
      ok := !silent;
    }

    method BringUpAll(ids: seq<Id>, expiresAt: Option<int>, ghost s: Site, ghost loose: set<string>)
      returns (up: map<Id, Sandbox>)
      requires Registry.ScanEnds(reg.pools) && State() == s && Tidy(s, seen, reg.pools, loose)
      requires forall i, j | 0 <= i < j < |ids| :: ids[i] != ids[j]
      requires forall i | 0 <= i < |ids| :: FreshDisk(seen, ids[i]) && RootfsPath(ids[i]) !in loose
      modifies this, reg, host
      ensures Tidy(State(), seen, reg.pools, loose) && old(seen) <= seen
      ensures State() == WithClones(s, up, map[]) && ClonesApart(s, up, map[])
      ensures Brought(up, ids, expiresAt)
      ensures host.reliable && RoomForMore(s.t, reg.pools, ids) ==> forall id | id in ids :: id in up
    {
      hide Tidy, FreshDisk, RootfsPath, Raised, WithClones, ClonesApart, Acceptable, T.Create, Brought, RoomForMore;
      up := map[];
      NoneBrought(expiresAt);
      NoClones(s);
      NoneApart(s);
      var i := 0;
      assert ids[..0] == [];
      while i < |ids|
        invariant 0 <= i <= |ids|
        invariant Tidy(State(), seen, reg.pools, loose) && old(seen) <= seen
        invariant State() == WithClones(s, up, map[]) && ClonesApart(s, up, map[])
        invariant forall j | i <= j < |ids| :: FreshDisk(seen, ids[j])
        invariant Brought(up, ids[..i], expiresAt) && |up| <= i
        invariant host.reliable && RoomForMore(s.t, reg.pools, ids) ==> forall j | 0 <= j < i :: ids[j] in up
      {
        ghost var w, before := State(), seen;
        NotYetUp(up, ids, i, expiresAt);
        RoomForNext(s, up, w, before, reg.pools, loose, ids, i, expiresAt);
        var row := BringUpClone(ids[i], expiresAt, loose);
        assert ids[..i + 1] == ids[..i] + [ids[i]];
        BroughtMore(up, ids, i, expiresAt, w.t, reg.pools, row);
        if row.Some? {
          CloneRaised(s, up, w, before, reg.pools, ids[i], row.value);
          up := up[ids[i] := row.value];
        }
        i := i + 1;
      }
      assert ids[..i] == ids;
    }

    method FinishAll(up: map<Id, Sandbox>, ghost s: Site) returns (done: set<Id>, ghost live: map<Id, Sandbox>)
      requires Valid() && State() == WithClones(s, up, map[]) && ClonesApart(s, up, map[])
      requires forall id | id in up :: up[id].pid == 0
      modifies this, reg, host
      ensures Valid()
      ensures host.reliable ==> done == up.Keys
      ensures State() == WithClones(s, map[], live) && live.Keys == done <= clones
      ensures forall id | id in live :: id in up && live[id] == up[id].(pid := live[id].pid) && live[id].pid != 0
    {
      hide Tidy, WithClones, ClonesApart, Joined, Stripped, Parked, SplitClones, NoneLost, Registry.ScanEnds;
      done, live := {}, map[];
      var rest := up;
      NoneSplit(up);
      NoneDone(up);
      while rest != map[]
        invariant Valid() && State() == WithClones(s, rest, live) && ClonesApart(s, rest, live)
        invariant SplitClones(up, rest, live, done) && done <= clones && done !! rest.Keys
        invariant host.reliable ==> NoneLost(up, rest, done)
        decreases |rest|
      {
        var id :| id in rest;
        UpIsNew(up, rest, live, done, id);
        ParkedClone(s, rest, live, id);
        PortsDiffer(s, rest, live, State(), seen, reg.pools);
        var pid := FinishClone(id, rest[id]);
        if pid != 0 {
          CloneJoined(s, rest, live, id, pid);
          SplitFurther(up, rest, live, done, id, pid);
          NoneLostYet(up, rest, done, id);
          live := live[id := rest[id].(pid := pid)];
          done := done + {id};
        } else {
          CloneStripped(s, rest, live, id);
        }
        FewerLeft(rest, id);
        rest := rest - {id};
      }
      AllSplit(up, live, done);
      AllDone(up, done);
    }

    /** POST /snapshots/{id}/fanout, ids being the fresh UUIDs. Whatever subset of the clones fails, and at whatever
        point: registry, host and machines end up as they were plus exactly the live clones, each complete; and the
        disk staged at the baked path is gone again. Only a staging copy that breaks off half-way stays. */
    method HandleFanout(snapId: Id, ids: seq<Id>, timeoutSec: int, now: int)
      returns (r: Result<set<Id>, Failure>, ghost live: map<Id, Sandbox>, ghost rest: Residue)
      requires Valid()
      requires forall i, j | 0 <= i < j < |ids| :: ids[i] != ids[j]
      requires forall i | 0 <= i < |ids| :: FreshDisk(seen, ids[i])
      modifies this, reg, host
      ensures rest == NOTHING ==> Valid()
      ensures snapId !in old(reg.snapshots) ==> r == Err(Missing)
      ensures steady && r == Err(Missing) ==> snapId !in old(reg.snapshots)
      ensures r == Err(BadRequest) ==> snapId in old(reg.snapshots) && (|ids| < 1 || timeoutSec < 0)
      ensures snapId in old(reg.snapshots) && (|ids| < 1 || timeoutSec < 0) ==> r in {Err(BadRequest), Err(Missing)}
      ensures r.Err? ==> State() == After(old(State()), rest)
      ensures r == Err(Missing) ==> rest == NOTHING
      ensures r.Err? && rest != NOTHING ==> snapId in old(reg.snapshots) && rest == HalfCopy(old(reg.snapshots)[snapId].bakedPath)
      ensures r.Ok? ==> r.value == live.Keys != {} && live.Keys <= clones && rest == NOTHING
                        && State() == WithClones(old(State()), map[], live)
      ensures r.Ok? ==> forall id | id in live :: id in ids && live[id].pid != 0 && live[id].rootfsPath == RootfsPath(id)
      ensures r.Ok? ==> forall id | id in live :: Present(State(), id, live[id]) && Timed(live[id], now, timeoutSec)
      ensures host.reliable && snapId in old(reg.snapshots) && |ids| > 0 && timeoutSec >= 0
              && RoomForMore(old(reg.State()), reg.pools, ids) ==>
                r.Ok? && forall id | id in ids :: id in live
      ensures rest == NOTHING && snapId in old(reg.snapshots) ==>
                var baked := old(reg.snapshots)[snapId].bakedPath; baked in host.files <==> baked in old(host.files)
    {
      ghost var s := State();
      live, rest := map[], NOTHING;
      hide Tidy, FreshDisk, RootfsPath, WithClones, ClonesApart, Present, Timed, Deadline, RoomForMore;
      AfterNothing(s);
      var cancelled := Cancelled();
      if cancelled || snapId !in reg.snapshots {
        return Err(Missing), live, rest;
      }
      if |ids| < 1 || timeoutSec < 0 {
        return Err(BadRequest), live, rest;
      }
      var baked := reg.snapshots[snapId].bakedPath;
      BakedIsNotFresh(s, seen, reg.pools, snapId);
      var staged := false;
      if baked !in host.files {
        var copy := host.CopyFile(baked);
        if !copy.Done? {
          rest := if copy.Half? then HalfCopy(baked) else NOTHING;
          return Err(Unavailable), live, rest;
        }
        staged := true;
      }
      ghost var loose := if staged then {baked} else {};
      StagedIsTidy(s, seen, reg.pools, baked);
      ghost var s1 := State();
      var up := BringUpAll(ids, Deadline(now, timeoutSec), s1, loose);
      assert forall id | id in up :: up[id].rootfsPath != baked;
      assert host.reliable && RoomForMore(s.t, reg.pools, ids) ==> ids[0] in up;
      if staged {
        Unstaged(s, up, baked, seen, reg.pools);
        host.RemoveFile(baked);
      }
      var done;
      done, live := FinishAll(up, s);
      BakedAsBefore(s, live, baked);
      if done == {} {
        assert live == map[];
        NoClones(s);
        return Err(Unavailable), live, rest;
      }
      forall id | id in live ensures Present(State(), id, live[id]) && Timed(live[id], now, timeoutSec) {
        LiveIsPresent(s, live, id, State());
        DeadlineIsKept(live[id], now, timeoutSec);
      }
      return Ok(done), live, rest;
    }
  }

  /** These sandboxes are new, and the pools have room for them. */
  predicate RoomForMore(t: Tables, p: Pools, ids: seq<Id>) {
    Room(t, p, |ids|) && forall id | id in ids :: id !in t.sandboxes
  }

  /** A host port is left beside those of the sandboxes and the mappings. */
  predicate PortLeft(t: Tables, p: Pools) {
    |t.sandboxes| + |t.ports| < |PortPool(p)|
  }

  lemma RoomToExpose(s: Site, seen: set<Disk>, p: Pools, id: Id, guestPort: int)
    requires Tidy(s, seen, p, {}) && id in s.t.sandboxes && (id, guestPort) !in s.t.ports
    ensures T.AddPort(s.t, p, id, guestPort).Ok? <==> PortLeft(s.t, p)
    ensures T.AddPort(s.t, p, id, guestPort).Err? ==> T.AddPort(s.t, p, id, guestPort) == Err(PortPoolExhausted)
  {
    hide PortPool, Tidy, Consistent, InPools, T.AddPort;
    TidyTables(s, seen, p, {});
    PortAdmission(s.t, p, id, guestPort);
  }

  /** No row ever leaves the running status. */
  lemma RowsRun(s: Site, seen: set<Disk>, p: Pools)
    requires Tidy(s, seen, p, {})
    ensures forall id | id in s.t.sandboxes :: s.t.sandboxes[id].status.Running?
  {
    assert Consistent(s.t);
    hide BookInv, TapsTidy, FilesTidy, RulesTidy;
  }

  /** The clones that are up are among these, each with its own disk and the deadline that was asked for. */
  ghost predicate Brought(up: map<Id, Sandbox>, ids: seq<Id>, e: Option<int>) {
    forall id | id in up ::
      && id in ids && up[id].pid == 0 && up[id].rootfsPath == RootfsPath(id)
      && up[id].status.Running? && up[id].expiresAt == e
  }

  lemma NoneBrought(e: Option<int>)
    ensures Brought(map[], [], e)
  {
  }

  lemma NotYetUp(up: map<Id, Sandbox>, ids: seq<Id>, i: nat, e: Option<int>)
    requires i < |ids| && Brought(up, ids[..i], e) && forall j, k | 0 <= j < k < |ids| :: ids[j] != ids[k]
    ensures ids[i] !in up
  {
    hide RootfsPath;
  }

  lemma BroughtMore(up: map<Id, Sandbox>, ids: seq<Id>, i: nat, e: Option<int>, t: Tables, p: Pools, row: Option<Sandbox>)
    requires i < |ids| && Brought(up, ids[..i], e)
    requires row.Some? ==> T.Create(t, p, ids[i], RootfsPath(ids[i]), e) == Ok(row.value)
    ensures row.Some? ==> Brought(up[ids[i] := row.value], ids[..i + 1], e) && |up[ids[i] := row.value]| <= |up| + 1
    ensures Brought(up, ids[..i + 1], e)
  {
    hide RootfsPath, T.Create, TapHeld, AddressHeld, LeastFreePort;
    assert ids[..i + 1] == ids[..i] + [ids[i]];
    var _, _ := CreatedIsLeast(t, p, ids[i], RootfsPath(ids[i]), e);
    if row.Some? {
      OneMoreEntry(up, ids[i], row.value);
    }
  }

  lemma OneMoreEntry(m: map<Id, Sandbox>, id: Id, row: Sandbox)
    ensures |m[id := row]| <= |m| + 1
  {
    assert m[id := row].Keys == m.Keys + {id};
    assert |m.Keys| == |m| && |m[id := row].Keys| == |m[id := row]|;
  }

  /** While clones are brought up the registry has room for the next. */
  lemma RoomForNext(s: Site, up: map<Id, Sandbox>, w: Site, seen: set<Disk>, p: Pools, loose: set<string>, ids: seq<Id>, i: nat,
                    e: Option<int>)
    requires w == WithClones(s, up, map[]) && Tidy(w, seen, p, loose) && i < |ids| && |up| <= i && ids[i] !in up
    ensures RoomForMore(s.t, p, ids) ==> T.Create(w.t, p, ids[i], RootfsPath(ids[i]), e).Ok?
  {
    hide PortPool, TapPool, IPPool, Tidy, Consistent, InPools, T.Create, RootfsPath, TapsOf, PathsOf, ForwardsOf,
      TapsWith;
    TidyTables(w, seen, p, loose);
    assert w.t.sandboxes == s.t.sandboxes + up + map[] && w.t.ports == s.t.ports;
    assert s.t.sandboxes + up + map[] == s.t.sandboxes + up;
    JoinedSize(s.t.sandboxes, up);
    hide WithClones;
    if RoomForMore(s.t, p, ids) {
      ExactAdmission(w.t, p, ids[i], RootfsPath(ids[i]), e);
    }
  }

  lemma TidyTables(s: Site, seen: set<Disk>, p: Pools, loose: set<string>)
    requires Tidy(s, seen, p, loose)
    ensures Consistent(s.t) && InPools(s.t, p)
  {
    hide Consistent, InPools, Functional, Recorded, SeenInPools, TapsTidy, FilesTidy, RulesTidy;
  }

  lemma JoinedSize(m: map<Id, Sandbox>, n: map<Id, Sandbox>)
    ensures |m + n| <= |m| + |n|
  {
    assert (m + n).Keys == m.Keys + n.Keys;
    assert |m.Keys + n.Keys| <= |m.Keys| + |n.Keys|;
    assert |m.Keys| == |m| && |n.Keys| == |n| && |(m + n).Keys| == |m + n|;
  }

  /** A clone that is live is complete. */
  lemma LiveIsPresent(s: Site, live: map<Id, Sandbox>, id: Id, w: Site)
    requires w == WithClones(s, map[], live) && id in live
    ensures Present(w, id, live[id])
  {
    var row := live[id];
    assert row.tap in TapsOf(live) && row.rootfsPath in PathsOf(live);
    forall r | r in PortRules(row.ip, row.hostPort, PRIMARY_PORT) ensures r in ForwardsOf(live) && r in w.host.rules {
      hide TapsOf, PathsOf, TapsWith;
    }
    hide ForwardsOf, TapsOf, PathsOf;
  }

  lemma OtherDisksFresh(seen: set<Disk>, id: Id, row: Sandbox)
    requires row.rootfsPath == RootfsPath(id)
    ensures forall j | j != id && FreshDisk(seen, j) :: FreshDisk(seen + {DiskOf(row)}, j)
  {
    forall j | j != id && FreshDisk(seen, j) ensures FreshDisk(seen + {DiskOf(row)}, j) {
      RootfsPathInjective(id, j);
    }
  }

  lemma AcceptedIsClear(s: Site, seen: set<Disk>, p: Pools, id: Id, row: Sandbox)
    requires Acceptable(s, seen, p, id, row)
    ensures Clear(s, id, row)
  {
  }

  /** A clone between its resume and the bridge. */
  ghost predicate Parked(s: Site, id: Id, row: Sandbox) {
    && id in s.t.sandboxes && s.t.sandboxes[id] == row && row.pid == 0 && id !in s.machines && PortKeys(s.t, id) == {}
    && row.tap in s.host.taps && forall r | r in s.host.rules :: r.hostPort != row.hostPort
  }

  lemma ParkedRow(s: Site, id: Id, row: Sandbox)
    requires Parked(s, id, row)
    ensures id in s.t.sandboxes && s.t.sandboxes[id] == row && row.tap in s.host.taps
  {
  }

  /** u is s with part of the work of Bridge done. */
  lemma StrippedPart(s: Site, id: Id, row: Sandbox, u: Site)
    requires Parked(s, id, row)
    requires u.t in {s.t, WithPid(s.t, id, row.pid)} || exists pid :: u.t == WithPid(s.t, id, pid)
    requires s.machines <= u.machines <= s.machines + {id} && u.host.files == s.host.files
    requires u.host.taps in {s.host.taps, s.host.taps[row.tap := true]}
    requires s.host.rules <= u.host.rules <= s.host.rules + multiset(PortRules(row.ip, row.hostPort, PRIMARY_PORT))
    ensures id in u.t.sandboxes && Stripped(u, id) == Stripped(s, id)
  {
    hide ExtraRules, PortRules, PortKeys, WithPid, PrimaryRules, WithoutSandbox;
    PartTables(s, id, row, u.t);
    PartHost(s, u, row);
    PartMachines(s, u, id);
    hide Parked;
  }

  lemma PartMachines(s: Site, u: Site, id: Id)
    requires s.machines <= u.machines <= s.machines + {id}
    ensures u.machines - {id} == s.machines - {id}
  {
  }

  lemma PartTables(s: Site, id: Id, row: Sandbox, u: Tables)
    requires Parked(s, id, row)
    requires u in {s.t, WithPid(s.t, id, row.pid)} || exists pid :: u == WithPid(s.t, id, pid)
    ensures id in u.sandboxes && u.sandboxes[id] == row.(pid := u.sandboxes[id].pid)
    ensures WithoutSandbox(u, id) == WithoutSandbox(s.t, id)
    ensures ExtraRules(u, id) == ExtraRules(s.t, id) == {}
    ensures PrimaryRules(u, id) == PrimaryRules(s.t, id) == PortRules(row.ip, row.hostPort, PRIMARY_PORT)
  {
    assert PortKeys(u, id) == PortKeys(s.t, id) == {};
    assert u.sandboxes - {id} == s.t.sandboxes - {id};
    hide PortRules;
  }

  lemma PartHost(s: Site, u: Site, row: Sandbox)
    requires u.host.taps in {s.host.taps, s.host.taps[row.tap := true]}
    requires s.host.rules <= u.host.rules <= s.host.rules + multiset(PortRules(row.ip, row.hostPort, PRIMARY_PORT))
    requires forall r | r in s.host.rules :: r.hostPort != row.hostPort
    ensures var own := multiset(PortRules(row.ip, row.hostPort, PRIMARY_PORT));
            u.host.rules - multiset{} - own == s.host.rules - multiset{} - own
    ensures u.host.taps - {row.tap} == s.host.taps - {row.tap}
  {
    var own := multiset(PortRules(row.ip, row.hostPort, PRIMARY_PORT));
    forall r ensures (u.host.rules - multiset{} - own)[r] == (s.host.rules - multiset{} - own)[r] {
    }
  }

  lemma NoneApart(s: Site)
    ensures ClonesApart(s, map[], map[])
  {
  }

  lemma CloneRaised(s: Site, up: map<Id, Sandbox>, w: Site, seen: set<Disk>, p: Pools, id: Id, row: Sandbox)
    requires w == WithClones(s, up, map[]) && ClonesApart(s, up, map[]) && id !in up && Acceptable(w, seen, p, id, row)
    ensures Raised(w, id, row, false) == WithClones(s, up[id := row], map[]) && ClonesApart(s, up[id := row], map[])
    ensures row.pid == 0
  {
    RaisedClone(s, up, id, row);
    assert ForwardsOf(map[]) == {};
    assert forall r | r in s.host.rules :: r in w.host.rules;
    hide ClonesApart, Clear, Raised, BookInv;
    RaisedCloneApart(s, up, id, row);
  }

  lemma ParkedClone(s: Site, up: map<Id, Sandbox>, live: map<Id, Sandbox>, id: Id)
    requires id in up && ClonesApart(s, up, live) && up[id].pid == 0
    ensures Parked(WithClones(s, up, live), id, up[id])
  {
    assert CloneApart(s, up, live, id);
    SplitRows(up, id);
    NoneForwarded(s, up, live, id);
    hide TapsOf, PathsOf, ForwardsOf, ClonesApart;
    assert PortKeys(WithClones(s, up, live).t, id) == PortKeys(s.t, id);
  }

  lemma PortsDiffer(s: Site, up: map<Id, Sandbox>, live: map<Id, Sandbox>, w: Site, seen: set<Disk>, p: Pools)
    requires ClonesApart(s, up, live) && w == WithClones(s, up, live) && Tidy(w, seen, p, {})
    ensures forall i, j | i in up && j in up && i != j :: up[i].hostPort != up[j].hostPort
  {
    forall i, j | i in up && j in up && i != j ensures up[i].hostPort != up[j].hostPort {
      assert CloneApart(s, up, live, i) && CloneApart(s, up, live, j);
      assert w.t.sandboxes[i] == up[i] && w.t.sandboxes[j] == up[j];
      assert Apart(up[i], up[j]);
    }
  }

  lemma CloneJoined(s: Site, up: map<Id, Sandbox>, live: map<Id, Sandbox>, id: Id, pid: int)
    requires id in up && ClonesApart(s, up, live)
    requires forall i, j | i in up && j in up && i != j :: up[i].hostPort != up[j].hostPort
    ensures var row := up[id].(pid := pid);
            && Joined(WithClones(s, up, live), id, row) == WithClones(s, up - {id}, live[id := row])
            && ClonesApart(s, up - {id}, live[id := row])
  {
    assert CloneApart(s, up, live, id);
    hide CloneApart, WithClones, Joined;
    JoinedClone(s, up, live, id, pid);
    JoinedCloneApart(s, up, live, id, pid);
  }

  lemma CloneStripped(s: Site, up: map<Id, Sandbox>, live: map<Id, Sandbox>, id: Id)
    requires id in up && ClonesApart(s, up, live)
    ensures id in WithClones(s, up, live).t.sandboxes
    ensures Stripped(WithClones(s, up, live), id) == WithClones(s, up - {id}, live) && ClonesApart(s, up - {id}, live)
  {
    assert CloneApart(s, up, live, id);
    hide CloneApart, Stripped;
    StrippedClone(s, up, live, id);
    StrippedCloneApart(s, up, live, id);
  }

  /** The clones that came up: those still waiting, and those that are live with their process id. */
  ghost predicate SplitClones(up: map<Id, Sandbox>, rest: map<Id, Sandbox>, live: map<Id, Sandbox>, done: set<Id>) {
    && (forall id | id in rest :: id in up && rest[id] == up[id])
    && live.Keys == done
    && forall id | id in live :: id in up && live[id] == up[id].(pid := live[id].pid) && live[id].pid != 0
  }

  lemma NoneSplit(up: map<Id, Sandbox>)
    ensures SplitClones(up, up, map[], {})
  {
  }

  /** Every clone that came up still waits or is live. */
  ghost predicate NoneLost(up: map<Id, Sandbox>, rest: map<Id, Sandbox>, done: set<Id>) {
    done + rest.Keys == up.Keys
  }

  lemma NoneDone(up: map<Id, Sandbox>)
    ensures NoneLost(up, up, {})
  {
  }

  lemma NoneLostYet(up: map<Id, Sandbox>, rest: map<Id, Sandbox>, done: set<Id>, id: Id)
    requires id in rest
    ensures NoneLost(up, rest, done) ==> NoneLost(up, rest - {id}, done + {id})
  {
  }

  lemma AllDone(up: map<Id, Sandbox>, done: set<Id>)
    ensures NoneLost(up, map[], done) ==> done == up.Keys
  {
  }

  lemma UpIsNew(up: map<Id, Sandbox>, rest: map<Id, Sandbox>, live: map<Id, Sandbox>, done: set<Id>, id: Id)
    requires SplitClones(up, rest, live, done) && id in rest
    ensures id in up && rest[id] == up[id] && SplitClones(up, rest - {id}, live, done)
  {
  }

  lemma SplitFurther(up: map<Id, Sandbox>, rest: map<Id, Sandbox>, live: map<Id, Sandbox>, done: set<Id>, id: Id, pid: int)
    requires SplitClones(up, rest, live, done) && id in rest && pid != 0
    ensures SplitClones(up, rest - {id}, live[id := rest[id].(pid := pid)], done + {id})
  {
  }

  lemma AllSplit(up: map<Id, Sandbox>, live: map<Id, Sandbox>, done: set<Id>)
    requires SplitClones(up, map[], live, done)
    ensures live.Keys == done
    ensures forall id | id in live :: id in up && live[id] == up[id].(pid := live[id].pid) && live[id].pid != 0
  {
  }

  lemma FewerLeft(rest: map<Id, Sandbox>, id: Id)
    requires id in rest
    ensures |rest - {id}| < |rest|
  {
    assert rest.Keys == (rest - {id}).Keys + {id};
    assert |rest.Keys| == |rest| && |(rest - {id}).Keys| == |rest - {id}|;
  }

  lemma BakedIsNotFresh(s: Site, seen: set<Disk>, p: Pools, snapId: Id)
    requires Tidy(s, seen, p, {}) && snapId in s.t.snapshots
    ensures forall j | FreshDisk(seen, j) :: RootfsPath(j) != s.t.snapshots[snapId].bakedPath
  {
    SnapshotIsSeen(s, seen, p, snapId);
    assert BakedDisk(s.t.snapshots[snapId]).path == s.t.snapshots[snapId].bakedPath;
    hide Tidy, RootfsPath;
  }

  function Staged(s: Site, path: string): Site {
    s.(host := WithFile(s.host, path))
  }

  lemma StagedIsTidy(s: Site, seen: set<Disk>, p: Pools, path: string)
    requires Tidy(s, seen, p, {})
    ensures Tidy(Staged(s, path), seen, p, {path})
  {
    hide BookInv, Owns;
  }

  /** The staged disk is unlinked: the clones do not need it. */
  lemma Unstaged(s: Site, up: map<Id, Sandbox>, baked: string, seen: set<Disk>, p: Pools)
    requires baked !in s.host.files && ClonesApart(Staged(s, baked), up, map[])
    requires forall id | id in up :: up[id].rootfsPath != baked
    requires Tidy(WithClones(Staged(s, baked), up, map[]), seen, p, {baked})
    ensures var w := WithClones(Staged(s, baked), up, map[]);
            w.(host := WithoutFile(w.host, baked)) == WithClones(s, up, map[])
    ensures ClonesApart(s, up, map[]) && Tidy(WithClones(s, up, map[]), seen, p, {})
  {
    UnstagedFiles(s, up, baked);
    hide WithClones, Staged, Tidy, ClonesApart;
    UnstagedApart(s, up, baked);
    UnstagedTidy(WithClones(Staged(s, baked), up, map[]), baked, seen, p);
  }

  lemma UnstagedFiles(s: Site, up: map<Id, Sandbox>, baked: string)
    requires baked !in s.host.files && forall id | id in up :: up[id].rootfsPath != baked
    ensures var w := WithClones(Staged(s, baked), up, map[]);
            w.(host := WithoutFile(w.host, baked)) == WithClones(s, up, map[])
  {
    var w := WithClones(Staged(s, baked), up, map[]);
    assert baked !in PathsOf(up) && PathsOf(map[]) == {};
    hide TapsOf, PathsOf, ForwardsOf, TapsWith;
    assert w.host.files - {baked} == WithClones(s, up, map[]).host.files;
  }

  lemma UnstagedApart(s: Site, up: map<Id, Sandbox>, baked: string)
    requires ClonesApart(Staged(s, baked), up, map[])
    ensures ClonesApart(s, up, map[])
  {
    hide TapsOf, PathsOf, ForwardsOf;
    forall id | id in up ensures CloneApart(s, up, map[], id) {
      assert CloneApart(Staged(s, baked), up, map[], id);
    }
  }

  lemma UnstagedTidy(w: Site, baked: string, seen: set<Disk>, p: Pools)
    requires Tidy(w, seen, p, {baked})
    ensures Tidy(w.(host := WithoutFile(w.host, baked)), seen, p, {})
  {
    hide BookInv, Owns;
  }

  lemma BakedAsBefore(s: Site, live: map<Id, Sandbox>, baked: string)
    requires forall id | id in live :: live[id].rootfsPath != baked
    ensures baked in WithClones(s, map[], live).host.files <==> baked in s.host.files
  {
  }

  lemma SnapshotIsTidy(s: Site, seen: set<Disk>, p: Pools, id: Id, snapId: Id, snap: Snapshot)
    requires Tidy(s, seen, p, {}) && id in s.t.sandboxes && BakedDisk(snap) == DiskOf(s.t.sandboxes[id])
    ensures Tidy(s.(t := WithSnapshot(s.t, snapId, snap)), seen, p, {})
  {
    var u := s.(t := WithSnapshot(s.t, snapId, snap));
    assert Recorded(Book(s.t, seen));
    SnapshotsKeepBook(Book(s.t, seen), p, snapId, snap);
    hide BookInv;
    SameNames(s, u);
    hide TapsTidy, FilesTidy, RulesTidy;
  }

  lemma TimeoutIsTidy(s: Site, seen: set<Disk>, p: Pools, id: Id, e: Option<int>)
    requires Tidy(s, seen, p, {}) && id in s.t.sandboxes
    ensures Tidy(s.(t := WithExpiry(s.t, id, e)), seen, p, {})
  {
    hide BookInv, TapsTidy, FilesTidy, RulesTidy;
    var u := s.(t := WithExpiry(s.t, id, e));
    UpdateKeepsBook(Book(s.t, seen), p, id, s.t.sandboxes[id].pid, e);
    assert forall j | j in s.t.sandboxes :: j in u.t.sandboxes && DiskOf(u.t.sandboxes[j]) == DiskOf(s.t.sandboxes[j]);
    SameNames(s, u);
  }

  lemma SameNames(s: Site, u: Site)
    requires TapsTidy(s) && FilesTidy(s, {}) && RulesTidy(s)
    requires u.host == s.host && u.t.ports == s.t.ports
    requires forall j | j in s.t.sandboxes ::
               && j in u.t.sandboxes && DiskOf(u.t.sandboxes[j]) == DiskOf(s.t.sandboxes[j])
               && u.t.sandboxes[j].hostPort == s.t.sandboxes[j].hostPort
    ensures TapsTidy(u) && FilesTidy(u, {}) && RulesTidy(u)
  {
    forall tap | tap in u.host.taps ensures exists j :: j in u.t.sandboxes && u.t.sandboxes[j].tap == tap {
      var j :| j in s.t.sandboxes && s.t.sandboxes[j].tap == tap;
      assert DiskOf(u.t.sandboxes[j]).tap == tap;
    }
    forall f | f in u.host.files ensures exists j :: j in u.t.sandboxes && u.t.sandboxes[j].rootfsPath == f {
      var j :| j in s.t.sandboxes && s.t.sandboxes[j].rootfsPath == f;
      assert DiskOf(u.t.sandboxes[j]).path == f;
    }
    forall r | r in u.host.rules ensures exists j :: Owns(u.t, j, r) {
      var j :| Owns(s.t, j, r);
      assert DiskOf(u.t.sandboxes[j]).ip == r.ip;
      assert Owns(u.t, j, r);
    }
  }

  lemma StrippedKeeps(s: Site, id: Id)
    ensures id in s.t.sandboxes ==> Stripped(s, id).t.sandboxes == s.t.sandboxes - {id}
                                    && Stripped(s, id).machines == s.machines - {id}
  {
  }

  lemma MachinesHaveRows(s: Site, seen: set<Disk>, p: Pools)
    requires Tidy(s, seen, p, {})
    ensures s.machines <= s.t.sandboxes.Keys
  {
  }

  lemma TidyTaps(s: Site, seen: set<Disk>, p: Pools)
    requires Tidy(s, seen, p, {})
    ensures forall tap | tap in s.host.taps :: exists id :: id in s.t.sandboxes && s.t.sandboxes[id].tap == tap
  {
  }

  /** What a failed exposure can leave: half a forward, a port row, or both. */
  function FailedExposures(ip: string, id: Id, guestPort: int, hostPort: int): set<Residue> {
    var rule := multiset{Rule(Prerouting, hostPort, ip, guestPort)};
    var port := map[(id, guestPort) := hostPort];
    {Residue({}, rule, map[]), Residue({}, multiset{}, port), Residue({}, rule, port)}
  }

  lemma Connected(s: Site, id: Id, row: Sandbox, pid: int, u: Site)
    requires u.t == WithPid(WithSandbox(s.t, id, row), id, pid) && u.machines == s.machines + {id}
    requires u.host.taps == s.host.taps[row.tap := true] && u.host.files == s.host.files + {row.rootfsPath}
    requires u.host.rules == s.host.rules + multiset(PortRules(row.ip, row.hostPort, PRIMARY_PORT))
    ensures u == Furnished(s, id, row.(pid := pid)) && id in u.t.sandboxes
  {
  }

  function HalfCopy(path: string): Residue {
    NOTHING.(files := {path})
  }

  lemma AfterNothing(s: Site)
    ensures After(s, NOTHING) == s
  {
  }

  lemma FreshHasNoFile(s: Site, seen: set<Disk>, p: Pools, id: Id)
    requires Tidy(s, seen, p, {}) && FreshDisk(seen, id)
    ensures RootfsPath(id) !in s.host.files
  {
    assert Recorded(Book(s.t, seen));
    assert forall j | j in s.t.sandboxes :: DiskOf(s.t.sandboxes[j]).path != RootfsPath(id);
    hide BookInv, RootfsPath;
  }

  lemma SnapshotIsSeen(s: Site, seen: set<Disk>, p: Pools, snapId: Id)
    requires Tidy(s, seen, p, {}) && snapId in s.t.snapshots
    ensures BakedDisk(s.t.snapshots[snapId]) in seen
  {
    assert Recorded(Book(s.t, seen));
  }

  /** However the start of an accepted sandbox ends, a server without residue is tidy. */
  lemma Settle(s: Site, seen: set<Disk>, p: Pools, id: Id, row: Sandbox)
    requires Tidy(s, seen, p, {}) && Acceptable(s, seen, p, id, row)
    ensures Tidy(s, seen + {DiskOf(row)}, p, {})
    ensures forall pid :: Tidy(Furnished(s, id, row.(pid := pid)), seen + {DiskOf(row)}, p, {})
  {
    RefusedBook(s, seen, p, id, row);
    TidyLater(s, seen, seen + {DiskOf(row)}, p, {});
    hide Tidy, Acceptable, Furnished;
    forall pid ensures Tidy(Furnished(s, id, row.(pid := pid)), seen + {DiskOf(row)}, p, {}) {
      FurnishedIsTidy(s, seen, p, id, row, pid);
    }
  }

  lemma RefusedBook(s: Site, seen: set<Disk>, p: Pools, id: Id, row: Sandbox)
    requires Acceptable(s, seen, p, id, row)
    ensures BookInv(Book(s.t, seen + {DiskOf(row)}), p)
  {
    hide BookInv;
    DestroyKeepsBook(Book(WithSandbox(s.t, id, row), seen + {DiskOf(row)}), p, id);
    Withdrawn(s.t, id, row);
  }

  lemma Withdrawn(t: Tables, id: Id, row: Sandbox)
    requires id !in t.sandboxes && PortKeys(t, id) == {}
    ensures WithoutSandbox(WithSandbox(t, id, row), id) == t
  {
    assert PortKeys(WithSandbox(t, id, row), id) == PortKeys(t, id);
    assert t.sandboxes[id := row] - {id} == t.sandboxes;
  }

  /** Row and disk are there, the tap is not. */
  function Prepared(s: Site, id: Id, row: Sandbox): Site {
    s.(t := WithSandbox(s.t, id, row), host := WithFile(s.host, row.rootfsPath))
  }

  function HalfForward(row: Sandbox): Residue {
    NOTHING.(rules := multiset{Rule(Prerouting, row.hostPort, row.ip, PRIMARY_PORT)})
  }

  /** Without the row, the tap and the disk everything is as before. */
  lemma RolledBack(s: Site, id: Id, row: Sandbox, u: Site, rest: Residue)
    requires Clear(s, id, row) && rest.files == {} && rest.ports == map[]
    requires u.t == WithoutSandbox(WithSandbox(s.t, id, row), id) && u.machines == s.machines
    requires u.host.taps == s.host.taps - {row.tap} && u.host.files == s.host.files - {row.rootfsPath}
    requires u.host.rules == s.host.rules + rest.rules
    ensures u == After(s, rest)
  {
    assert u.host.taps == s.host.taps;
    assert PortKeys(WithSandbox(s.t, id, row), id) == {};
    assert u.t.sandboxes == s.t.sandboxes;
  }

  lemma EmptiedPrimaryIsTidy(s: Site, seen: set<Disk>, p: Pools, id: Id)
    requires Tidy(s, seen, p, {}) && id in s.t.sandboxes
    ensures Tidy(EmptiedPrimary(s, id), seen, p, {})
    ensures Stripped(EmptiedPrimary(s, id), id) == Stripped(s, id)
  {
    hide Tidy, ExtraRules, PrimaryRules;
    var extra, primary := multiset(ExtraRules(s.t, id)), multiset(PrimaryRules(s.t, id));
    assert forall r | r in s.host.rules :: s.host.rules[r] == 1 by {
      OneEach(s, seen, p);
    }
    RemovedOnce(s.host.rules, extra, primary);
    FewerIsTidy(s, EmptiedPrimary(s, id), seen, p, {});
    PartlyEmptied(s, id);
  }

  lemma PartlyEmptied(s: Site, id: Id)
    requires id in s.t.sandboxes
    requires var e, q := multiset(ExtraRules(s.t, id)), multiset(PrimaryRules(s.t, id));
             s.host.rules - q - e - q == s.host.rules - e - q
    ensures Stripped(EmptiedPrimary(s, id), id) == Stripped(s, id)
  {
    hide ExtraRules, PrimaryRules, WithoutSandbox;
    assert EmptiedPrimary(s, id).t == s.t;
  }

  lemma RemovedOnce(m: multiset<Rule>, a: multiset<Rule>, b: multiset<Rule>)
    requires forall r | r in m :: m[r] == 1
    ensures m - b - a - b == m - a - b && m - b <= m
  {
    forall r ensures (m - b - a - b)[r] == (m - a - b)[r] {
      assert r !in m || m[r] == 1;
    }
  }

  /** What a destroy that could not read the extra ports takes down. */
  function EmptiedPrimary(s: Site, id: Id): Site
    requires id in s.t.sandboxes
  {
    Emptied(s, id).(host := Emptied(s, id).host.(rules := s.host.rules - multiset(PrimaryRules(s.t, id))))
  }

  lemma TakenDown(s: Site, id: Id, ports: seq<Registry.PortMapping>, read: bool)
    requires id in s.t.sandboxes
    requires read ==> forall i | 0 <= i < |ports| :: (id, ports[i].guestPort) in s.t.ports
                                                     && s.t.ports[(id, ports[i].guestPort)] == ports[i].hostPort
    requires read ==> forall gp | (id, gp) in s.t.ports :: Registry.PortMapping(gp, s.t.ports[(id, gp)]) in ports
    requires !read ==> ports == []
    ensures var row := s.t.sandboxes[id];
            var primary := PortRules(row.ip, row.hostPort, PRIMARY_PORT);
            var rules := s.host.rules - multiset(MappedRules(row.ip, ports)) - multiset(primary);
            s.(machines := s.machines - {id}, host := Host(s.host.taps - {row.tap}, rules, s.host.files - {row.rootfsPath}))
            == if read then Emptied(s, id) else EmptiedPrimary(s, id)
  {
    if read {
      AllMapped(s.t, id, ports);
    } else {
      assert MappedRules(s.t.sandboxes[id].ip, []) == {};
    }
  }

  function MappedRules(ip: string, ports: seq<Registry.PortMapping>): set<Rule> {
    (set i | 0 <= i < |ports| :: Rule(Prerouting, ports[i].hostPort, ip, ports[i].guestPort)) +
    (set i | 0 <= i < |ports| :: Rule(Output, ports[i].hostPort, ip, ports[i].guestPort))
  }

  lemma MoreMapped(ip: string, ports: seq<Registry.PortMapping>, i: nat)
    requires i < |ports| && forall j, k | 0 <= j < k < |ports| :: ports[j].guestPort < ports[k].guestPort
    ensures multiset(MappedRules(ip, ports[..i + 1]))
         == multiset(MappedRules(ip, ports[..i])) + multiset(PortRules(ip, ports[i].hostPort, ports[i].guestPort))
  {
    var one := PortRules(ip, ports[i].hostPort, ports[i].guestPort);
    assert ports[..i + 1] == ports[..i] + [ports[i]];
    assert MappedRules(ip, ports[..i + 1]) == MappedRules(ip, ports[..i]) + one;
    assert MappedRules(ip, ports[..i]) !! one;
  }

  lemma AllMapped(t: Tables, id: Id, ports: seq<Registry.PortMapping>)
    requires id in t.sandboxes
    requires forall i | 0 <= i < |ports| :: (id, ports[i].guestPort) in t.ports
                                            && t.ports[(id, ports[i].guestPort)] == ports[i].hostPort
    requires forall gp | (id, gp) in t.ports :: Registry.PortMapping(gp, t.ports[(id, gp)]) in ports
    ensures MappedRules(t.sandboxes[id].ip, ports) == ExtraRules(t, id)
  {
    var ip := t.sandboxes[id].ip;
    forall r | r in ExtraRules(t, id) ensures r in MappedRules(ip, ports) {
      assert (id, r.guestPort) in PortKeys(t, id);
      var i :| 0 <= i < |ports| && ports[i] == Registry.PortMapping(r.guestPort, t.ports[(id, r.guestPort)]);
      assert r.chain == Prerouting || r.chain == Output;
    }
    forall r | r in MappedRules(ip, ports) ensures r in ExtraRules(t, id) {
      assert (id, r.guestPort) in PortKeys(t, id);
    }
  }
}
