/** The server's whole state as one value, and what a complete operation does to it: a create or restore, the exposure
    of a port, a destroy. */
module Sites {
  import opened Wrappers
  import opened Pools
  import opened Tables
  import opened History
  import opened Hosts

  /** machines holds the sandboxes that the server drives. */
  datatype Site = Site(t: Tables, host: Host, machines: set<Id>)

  /** What a failed handler leaves behind: half-made copies, the first rule of a half-made forward, and port rows
      that could not be withdrawn. */
  datatype Residue = Residue(files: set<string>, rules: multiset<Rule>, ports: map<(Id, int), int>)

  const NOTHING := Residue({}, multiset{}, map[])

  function After(s: Site, rest: Residue): Site {
    s.(t := s.t.(ports := s.t.ports + rest.ports),
    host := s.host.(files := s.host.files + rest.files, rules := s.host.rules + rest.rules))
  }

  /** A sandbox with its row, disk and tap, and nothing else. */
  function Raised(s: Site, id: Id, row: Sandbox, bridged: bool): Site {
    s.(t := WithSandbox(s.t, id, row), host := WithTap(WithFile(s.host, row.rootfsPath), row.tap, bridged))
  }

  /** A complete new sandbox: row, disk, bridged tap, both rules of the primary port, machine. */
  function Furnished(s: Site, id: Id, row: Sandbox): Site {
    Joined(Raised(s, id, row, true), id, row)
  }

  /** A raised sandbox comes onto the network. */
  function Joined(s: Site, id: Id, row: Sandbox): Site {
    s.(t := WithSandbox(s.t, id, row), machines := s.machines + {id},
    host := WithTap(s.host, row.tap, true).(rules := s.host.rules + multiset(PortRules(row.ip, row.hostPort, PRIMARY_PORT))))
  }

  function Exposed(s: Site, id: Id, guestPort: int, hostPort: int): Site
    requires id in s.t.sandboxes
  {
    s.(t := WithPort(s.t, id, guestPort, hostPort),
    host := s.host.(rules := s.host.rules + multiset(PortRules(s.t.sandboxes[id].ip, hostPort, guestPort))))
  }

  /** All that destroy takes down before the row goes. */
  function Emptied(s: Site, id: Id): Site
    requires id in s.t.sandboxes
  {
    var row := s.t.sandboxes[id];
    var rules := s.host.rules - multiset(ExtraRules(s.t, id)) - multiset(PrimaryRules(s.t, id));
    s.(host := Host(s.host.taps - {row.tap}, rules, s.host.files - {row.rootfsPath}), machines := s.machines - {id})
  }

  function Stripped(s: Site, id: Id): Site
    requires id in s.t.sandboxes
  {
    Emptied(s, id).(t := WithoutSandbox(s.t, id))
  }

  /** All that a live sandbox consists of is there. */
  ghost predicate Present(s: Site, id: Id, row: Sandbox) {
    && id in s.t.sandboxes && s.t.sandboxes[id] == row && id in s.machines
    && row.tap in s.host.taps && s.host.taps[row.tap] && row.rootfsPath in s.host.files
    && Rule(Prerouting, row.hostPort, row.ip, PRIMARY_PORT) in s.host.rules
    && Rule(Output, row.hostPort, row.ip, PRIMARY_PORT) in s.host.rules
  }

  /** An exposed port is listed, and both its rules are in force. */
  ghost predicate Forwarded(s: Site, id: Id, guestPort: int, hostPort: int) {
    && id in s.t.sandboxes && (id, guestPort) in s.t.ports && s.t.ports[(id, guestPort)] == hostPort
    && Rule(Prerouting, hostPort, s.t.sandboxes[id].ip, guestPort) in s.host.rules
    && Rule(Output, hostPort, s.t.sandboxes[id].ip, guestPort) in s.host.rules
  }

  /** Nothing of the sandbox is there. */
  ghost predicate Absent(s: Site, id: Id, row: Sandbox) {
    && id !in s.t.sandboxes && id !in s.machines && (forall k | k in s.t.ports :: k.0 != id)
    && row.tap !in s.host.taps && row.rootfsPath !in s.host.files && forall r | r in s.host.rules :: r.ip != row.ip
  }

  lemma FurnishedIsPresent(s: Site, id: Id, row: Sandbox)
    ensures Present(Furnished(s, id, row), id, row)
  {
  }

  lemma ExposedIsForwarded(s: Site, id: Id, guestPort: int, hostPort: int)
    requires id in s.t.sandboxes
    ensures Forwarded(Exposed(s, id, guestPort, hostPort), id, guestPort, hostPort)
  {
  }

  /** A destroy leaves nothing of a sandbox. */
  lemma StrippedIsAbsent(s: Site, seen: set<Disk>, p: Pools, loose: set<string>, id: Id)
    requires Tidy(s, seen, p, loose) && id in s.t.sandboxes
    ensures Absent(Stripped(s, id), id, s.t.sandboxes[id])
  {
    assert Consistent(s.t);
    hide BookInv, Consistent, TapsTidy, FilesTidy, RulesTidy, ExtraRules, PrimaryRules;
    RulesAreGone(s, id);
  }

  lemma RulesAreGone(s: Site, id: Id)
    requires RulesTidy(s) && Consistent(s.t) && id in s.t.sandboxes
    ensures forall r | r in Stripped(s, id).host.rules :: r.ip != s.t.sandboxes[id].ip
  {
    hide Consistent, PrimaryRules, ExtraRules, WithoutSandbox, Owns, RulesTidy;
    forall r | r in Stripped(s, id).host.rules ensures r.ip != s.t.sandboxes[id].ip {
      if r.ip == s.t.sandboxes[id].ip {
        OwnRule(s, id, r);
        RulesOfIsOwned(s.t, id, r);
      }
    }
  }

  lemma OwnRule(s: Site, id: Id, r: Rule)
    requires RulesTidy(s) && Consistent(s.t) && id in s.t.sandboxes && r in s.host.rules && r.ip == s.t.sandboxes[id].ip
    ensures Owns(s.t, id, r) && s.host.rules[r] == 1
  {
    var j :| Owns(s.t, j, r);
    OneOwner(s.t, j, id, r);
  }

  // --- destroy is the inverse ---

  /** Neither the tap nor the disk nor the identity of the row is in use. */
  predicate Clear(s: Site, id: Id, row: Sandbox) {
    && id !in s.t.sandboxes && id !in s.machines && PortKeys(s.t, id) == {}
    && row.tap !in s.host.taps && row.rootfsPath !in s.host.files
  }

  /** Destroying a new sandbox takes the server back to where it was. */
  lemma StripUndoesFurnish(s: Site, id: Id, row: Sandbox)
    requires Clear(s, id, row)
    ensures Stripped(Furnished(s, id, row), id) == s
  {
    var f := Furnished(s, id, row);
    assert PortKeys(f.t, id) == PortKeys(s.t, id);
    assert ExtraRules(f.t, id) == {};
    assert WithoutSandbox(f.t, id) == s.t;
    assert f.host.taps - {row.tap} == s.host.taps;
    assert f.host.files - {row.rootfsPath} == s.host.files;
    assert s.host.rules + multiset(PrimaryRules(f.t, id)) - multiset{} - multiset(PrimaryRules(f.t, id)) == s.host.rules;
  }

  lemma ExposedRules(t: Tables, id: Id, gp: int, hp: int)
    requires id in t.sandboxes && (id, gp) !in t.ports
    ensures var more := PortRules(t.sandboxes[id].ip, hp, gp);
            ExtraRules(WithPort(t, id, gp, hp), id) == ExtraRules(t, id) + more && ExtraRules(t, id) !! more
  {
    var u := WithPort(t, id, gp, hp);
    assert PortKeys(u, id) == PortKeys(t, id) + {(id, gp)};
    forall r | r in ExtraRules(t, id) ensures r.guestPort != gp {
    }
    forall r | r in ExtraRules(t, id) ensures r in ExtraRules(u, id) {
      var k :| k in PortKeys(t, id) && r.guestPort == k.1 && r.hostPort == t.ports[k] && r.ip == t.sandboxes[id].ip;
      assert k in PortKeys(u, id) && u.ports[k] == t.ports[k];
    }
    assert (id, gp) in PortKeys(u, id);
  }

  /** The rules that the exposure adds are those that the take-down removes in addition. */
  lemma ExposedRulesGo(s: Site, id: Id, gp: int, hp: int)
    requires id in s.t.sandboxes && (id, gp) !in s.t.ports
    ensures var e := Exposed(s, id, gp, hp);
            e.host.rules - multiset(ExtraRules(e.t, id)) == s.host.rules - multiset(ExtraRules(s.t, id))
  {
    ExposedRules(s.t, id, gp, hp);
    hide ExtraRules, PortRules;
    AddThenRemove(s.host.rules, ExtraRules(s.t, id), PortRules(s.t.sandboxes[id].ip, hp, gp));
  }

  lemma AddThenRemove(m: multiset<Rule>, own: set<Rule>, more: set<Rule>)
    requires own !! more
    ensures m + multiset(more) - multiset(own + more) == m - multiset(own)
  {
    forall r ensures (m + multiset(more) - multiset(own + more))[r] == (m - multiset(own))[r] {
      assert multiset(own + more)[r] == multiset(own)[r] + multiset(more)[r];
    }
  }

  lemma ExposedTables(t: Tables, id: Id, gp: int, hp: int)
    requires id in t.sandboxes && (id, gp) !in t.ports
    ensures var u := WithPort(t, id, gp, hp);
            WithoutSandbox(u, id) == WithoutSandbox(t, id) && PrimaryRules(u, id) == PrimaryRules(t, id)
  {
    var u := WithPort(t, id, gp, hp);
    assert u.ports - PortKeys(u, id) == t.ports - PortKeys(t, id);
  }

  /** An exposed port leaves no trace once its sandbox is destroyed. */
  lemma StripForgetsPort(s: Site, id: Id, gp: int, hp: int)
    requires id in s.t.sandboxes && (id, gp) !in s.t.ports
    ensures Stripped(Exposed(s, id, gp, hp), id) == Stripped(s, id)
  {
    ExposedRulesGo(s, id, gp, hp);
    ExposedTables(s.t, id, gp, hp);
    hide ExtraRules, PrimaryRules, PortRules, WithoutSandbox;
  }

  /** Port exposures of one sandbox, one after the other; a port that is exposed already stays as it is. */
  function ExposedAll(s: Site, id: Id, ports: seq<(int, int)>): Site
    requires id in s.t.sandboxes
    decreases |ports|
  {
    if ports == [] then s
    else ExposedAll(if (id, ports[0].0) in s.t.ports then s else Exposed(s, id, ports[0].0, ports[0].1), id, ports[1..])
  }

  lemma {:induction false} StripForgetsPorts(s: Site, id: Id, ports: seq<(int, int)>)
    requires id in s.t.sandboxes
    ensures id in ExposedAll(s, id, ports).t.sandboxes
    ensures Stripped(ExposedAll(s, id, ports), id) == Stripped(s, id)
    decreases |ports|
  {
    hide Stripped, Exposed;
    if ports != [] {
      var e := if (id, ports[0].0) in s.t.ports then s else Exposed(s, id, ports[0].0, ports[0].1);
      ExposedRowStays(s, id, ports[0].0, ports[0].1);
      if (id, ports[0].0) !in s.t.ports {
        StripForgetsPort(s, id, ports[0].0, ports[0].1);
      }
      StripForgetsPorts(e, id, ports[1..]);
    }
  }

  lemma ExposedRowStays(s: Site, id: Id, gp: int, hp: int)
    requires id in s.t.sandboxes
    ensures id in Exposed(s, id, gp, hp).t.sandboxes
  {
  }

  /** A whole life: a create or restore, any number of port exposures, a destroy. The server is back where it was. */
  lemma LifeLeavesNoTrace(s: Site, id: Id, row: Sandbox, ports: seq<(int, int)>)
    requires Clear(s, id, row)
    ensures id in ExposedAll(Furnished(s, id, row), id, ports).t.sandboxes
    ensures Stripped(ExposedAll(Furnished(s, id, row), id, ports), id) == s
  {
    StripForgetsPorts(Furnished(s, id, row), id, ports);
    StripUndoesFurnish(s, id, row);
  }

  // --- tidy hosts ---

  /** The registry keeps its invariant, and every tap, rule and disk on the host belongs to a row, each rule once;
      loose are disks that the running handler has staged. */
  ghost predicate Tidy(s: Site, seen: set<Disk>, p: Pools, loose: set<string>) {
    BookInv(Book(s.t, seen), p) && TapsTidy(s) && FilesTidy(s, loose) && RulesTidy(s) && s.machines <= s.t.sandboxes.Keys
  }

  ghost predicate TapsTidy(s: Site) {
    forall tap | tap in s.host.taps :: exists id :: id in s.t.sandboxes && s.t.sandboxes[id].tap == tap
  }

  ghost predicate FilesTidy(s: Site, loose: set<string>) {
    forall f | f in s.host.files :: f in loose || exists id :: id in s.t.sandboxes && s.t.sandboxes[id].rootfsPath == f
  }

  ghost predicate RulesTidy(s: Site) {
    forall r | r in s.host.rules :: s.host.rules[r] == 1 && exists id :: Owns(s.t, id, r)
  }

  /** Without rows a tidy host is empty. */
  lemma NoRowsNoObjects(s: Site, seen: set<Disk>, p: Pools)
    requires Tidy(s, seen, p, {}) && s.t.sandboxes == map[]
    ensures s == Site(Tables(map[], map[], s.t.snapshots), EMPTY_HOST, {})
  {
    hide InPools, Functional, Recorded, SeenInPools;
    assert forall k | k in s.t.ports :: k.0 in s.t.sandboxes;
    assert forall r :: r !in s.host.rules;
  }

  /** A longer history of disks does not matter. */
  lemma TidyLater(s: Site, seen: set<Disk>, later: set<Disk>, p: Pools, loose: set<string>)
    requires Tidy(s, seen, p, loose) && BookInv(Book(s.t, later), p)
    ensures Tidy(s, later, p, loose)
  {
    hide BookInv, Owns;
  }

  /** The host port of a new row is in no rule. */
  lemma NewPortHasNoRules(s: Site, seen: set<Disk>, p: Pools, loose: set<string>, hostPort: int)
    requires Tidy(s, seen, p, loose) && hostPort !in UsedPorts(s.t)
    ensures forall r | r in s.host.rules :: r.hostPort != hostPort
  {
    hide InPools, Functional, Recorded, SeenInPools;
    forall r | r in s.host.rules ensures r.hostPort != hostPort {
      var id :| Owns(s.t, id, r);
      if r.guestPort == PRIMARY_PORT && r.hostPort == s.t.sandboxes[id].hostPort {
        assert r.hostPort in UsedPrimaryPorts(s.t);
      } else {
        assert r.hostPort in UsedExtraPorts(s.t);
      }
    }
  }

  /** What a row that the registry has just accepted may count on. */
  ghost predicate Acceptable(s: Site, seen: set<Disk>, p: Pools, id: Id, row: Sandbox) {
    && Clear(s, id, row) && row.status.Running? && row.pid == 0
    && BookInv(Book(WithSandbox(s.t, id, row), seen + {DiskOf(row)}), p)
    && forall r | r in s.host.rules :: r.hostPort != row.hostPort
  }

  lemma NewRowIsClear(s: Site, seen: set<Disk>, p: Pools, loose: set<string>, id: Id, row: Sandbox)
    requires Tidy(s, seen, p, loose) && row.status.Running? && Insertable(s.t, id, row)
    requires forall d | d in seen && d.path == row.rootfsPath :: d.tap == row.tap
    requires row.rootfsPath !in loose
    ensures Clear(s, id, row)
  {
    hide InPools, Functional, SeenInPools;
    assert Consistent(s.t) && Recorded(Book(s.t, seen));
    forall j | j in s.t.sandboxes ensures s.t.sandboxes[j].tap != row.tap && s.t.sandboxes[j].rootfsPath != row.rootfsPath {
      InsertableIsApart(s.t, id, row, j);
      assert DiskOf(s.t.sandboxes[j]) in seen;
    }
    hide Insertable, Owns;
  }

  lemma CreatedIsAcceptable(s: Site, seen: set<Disk>, p: Pools, loose: set<string>, id: Id, e: Option<int>)
    requires Tidy(s, seen, p, loose) && FreshDisk(seen, id) && RootfsPath(id) !in loose
    ensures var r := Create(s.t, p, id, RootfsPath(id), e);
            r.Ok? ==> r.value.rootfsPath == RootfsPath(id) && Acceptable(s, seen, p, id, r.value)
  {
    var r := Create(s.t, p, id, RootfsPath(id), e);
    if r.Ok? {
      CreateKeepsBook(Book(s.t, seen), p, id, e);
      CreatedIsInsertable(s.t, p, id, RootfsPath(id), e);
      CreatedPort(s.t, p, id, RootfsPath(id), e);
      hide BookInv, Create, Insertable, RootfsPath;
      NewRowIsClear(s, seen, p, loose, id, r.value);
      NewPortHasNoRules(s, seen, p, loose, r.value.hostPort);
      hide Tidy, Clear;
    }
  }

  lemma CreatedPort(t: Tables, p: Pools, id: Id, path: string, e: Option<int>)
    ensures var r := Create(t, p, id, path, e); r.Ok? ==> r.value.hostPort !in UsedPorts(t) && r.value.pid == 0
  {
    hide TapPool, IPPool, PortPool;
  }

  lemma RestoredPort(t: Tables, p: Pools, id: Id, s: Snapshot, e: Option<int>)
    ensures var r := Restored(t, p, id, s, e); r.Ok? ==> r.value.hostPort !in UsedPorts(t) && r.value.pid == 0
  {
    hide PortPool;
  }

  lemma RestoredIsAcceptable(s: Site, seen: set<Disk>, p: Pools, id: Id, snapshot: Snapshot, e: Option<int>)
    requires Tidy(s, seen, p, {}) && BakedDisk(snapshot) in seen
    ensures var r := Restored(s.t, p, id, snapshot, e);
            r.Ok? ==> r.value.rootfsPath == snapshot.bakedPath && Acceptable(s, seen, p, id, r.value)
  {
    var r := Restored(s.t, p, id, snapshot, e);
    if r.Ok? {
      RestoreKeepsBook(Book(s.t, seen), p, id, snapshot, e);
      RestoredIsInsertable(s.t, p, id, snapshot.bakedPath, snapshot.tap, snapshot.ip, e);
      RestoredPort(s.t, p, id, snapshot, e);
      assert forall d | d in seen && d.path == snapshot.bakedPath :: d == BakedDisk(snapshot);
      hide BookInv, CreateRestore, Insertable;
      NewRowIsClear(s, seen, p, {}, id, r.value);
      NewPortHasNoRules(s, seen, p, {}, r.value.hostPort);
      hide Tidy, Clear;
    }
  }

  // --- complete operations keep the server tidy ---

  lemma RaisedIsTidy(s: Site, seen: set<Disk>, p: Pools, loose: set<string>, id: Id, row: Sandbox, bridged: bool)
    requires Tidy(s, seen, p, loose) && Acceptable(s, seen, p, id, row)
    ensures Tidy(Raised(s, id, row, bridged), seen + {DiskOf(row)}, p, loose)
  {
    hide BookInv, TapsTidy, FilesTidy, RulesTidy;
    RaisedObjects(s, loose, id, row, bridged);
  }

  lemma RaisedObjects(s: Site, loose: set<string>, id: Id, row: Sandbox, bridged: bool)
    requires TapsTidy(s) && FilesTidy(s, loose) && RulesTidy(s) && id !in s.t.sandboxes
    ensures var u := Raised(s, id, row, bridged); TapsTidy(u) && FilesTidy(u, loose) && RulesTidy(u)
  {
    var u := Raised(s, id, row, bridged);
    assert u.t.sandboxes[id] == row;
    forall tap | tap in u.host.taps ensures exists j :: j in u.t.sandboxes && u.t.sandboxes[j].tap == tap {
      if tap != row.tap {
        var j :| j in s.t.sandboxes && s.t.sandboxes[j].tap == tap;
        assert u.t.sandboxes[j].tap == tap;
      }
    }
    forall f | f in u.host.files && f !in loose ensures exists j :: j in u.t.sandboxes && u.t.sandboxes[j].rootfsPath == f {
      if f != row.rootfsPath {
        var j :| j in s.t.sandboxes && s.t.sandboxes[j].rootfsPath == f;
        assert u.t.sandboxes[j].rootfsPath == f;
      }
    }
    forall r | r in u.host.rules ensures exists j :: Owns(u.t, j, r) {
      var j :| Owns(s.t, j, r);
      assert Owns(u.t, j, r);
    }
  }

  /** row is the sandbox's row up to its process id. */
  lemma JoinedIsTidy(s: Site, seen: set<Disk>, p: Pools, loose: set<string>, id: Id, row: Sandbox)
    requires Tidy(s, seen, p, loose) && id in s.t.sandboxes && row == s.t.sandboxes[id].(pid := row.pid)
    requires forall r | r in s.host.rules :: r.hostPort != row.hostPort
    ensures Tidy(Joined(s, id, row), seen, p, loose)
  {
    UpdateKeepsBook(Book(s.t, seen), p, id, row.pid, row.expiresAt);
    hide BookInv, TapsTidy, FilesTidy, RulesTidy;
    JoinedObjects(s, loose, id, row);
    JoinedRules(s, id, row);
  }

  lemma JoinedObjects(s: Site, loose: set<string>, id: Id, row: Sandbox)
    requires TapsTidy(s) && FilesTidy(s, loose) && id in s.t.sandboxes && row == s.t.sandboxes[id].(pid := row.pid)
    ensures var u := Joined(s, id, row); TapsTidy(u) && FilesTidy(u, loose)
  {
    var u := Joined(s, id, row);
    assert u.t.sandboxes[id] == row;
    forall tap | tap in u.host.taps ensures exists j :: j in u.t.sandboxes && u.t.sandboxes[j].tap == tap {
      if tap != row.tap {
        var j :| j in s.t.sandboxes && s.t.sandboxes[j].tap == tap;
        assert u.t.sandboxes[j].tap == tap;
      }
    }
    forall f | f in u.host.files && f !in loose ensures exists j :: j in u.t.sandboxes && u.t.sandboxes[j].rootfsPath == f {
      var j :| j in s.t.sandboxes && s.t.sandboxes[j].rootfsPath == f;
      assert u.t.sandboxes[j].rootfsPath == f;
    }
  }

  lemma JoinedRules(s: Site, id: Id, row: Sandbox)
    requires RulesTidy(s) && id in s.t.sandboxes && row == s.t.sandboxes[id].(pid := row.pid)
    requires forall r | r in s.host.rules :: r.hostPort != row.hostPort
    ensures RulesTidy(Joined(s, id, row))
  {
    var u := Joined(s, id, row);
    forall r | r in u.host.rules ensures u.host.rules[r] == 1 && exists j :: Owns(u.t, j, r) {
      if r in PortRules(row.ip, row.hostPort, PRIMARY_PORT) {
        assert r.hostPort == row.hostPort && s.host.rules[r] == 0;
        assert Owns(u.t, id, r);
      } else {
        assert r in s.host.rules;
        var j :| Owns(s.t, j, r);
        assert Owns(u.t, j, r);
      }
    }
  }

  lemma FurnishedIsTidy(s: Site, seen: set<Disk>, p: Pools, id: Id, row: Sandbox, pid: int)
    requires Tidy(s, seen, p, {}) && Acceptable(s, seen, p, id, row)
    ensures Tidy(Furnished(s, id, row.(pid := pid)), seen + {DiskOf(row)}, p, {})
  {
    var up := Raised(s, id, row, true);
    RaisedIsTidy(s, seen, p, {}, id, row, true);
    assert up.t.sandboxes[id] == row && up.host.rules == s.host.rules;
    assert forall r | r in s.host.rules :: r.hostPort != row.hostPort;
    FurnishedInSteps(s, id, row, pid);
    hide Tidy, Acceptable, Joined, Raised, Furnished;
    JoinedIsTidy(up, seen + {DiskOf(row)}, p, {}, id, row.(pid := pid));
  }

  lemma FurnishedInSteps(s: Site, id: Id, row: Sandbox, pid: int)
    ensures Furnished(s, id, row.(pid := pid)) == Joined(Raised(s, id, row, true), id, row.(pid := pid))
  {
  }

  lemma ExposedIsTidy(s: Site, seen: set<Disk>, p: Pools, id: Id, gp: int)
    requires Tidy(s, seen, p, {}) && id in s.t.sandboxes && (id, gp) !in s.t.ports
    ensures var r := AddPort(s.t, p, id, gp); r.Ok? ==> Tidy(Exposed(s, id, gp, r.value), seen, p, {})
  {
    var r := AddPort(s.t, p, id, gp);
    if r.Ok? {
      AddPortKeepsBook(Book(s.t, seen), p, id, gp);
      hide BookInv, TapsTidy, FilesTidy, RulesTidy, UsedPorts;
      AllottedPort(s.t, p, id, gp);
      NewPortHasNoRules(s, seen, p, {}, r.value);
      ExposedObjects(s, id, gp, r.value);
      ExposedRulesTidy(s, id, gp, r.value);
    }
  }

  lemma AllottedPort(t: Tables, p: Pools, id: Id, gp: int)
    requires (id, gp) !in t.ports
    ensures var r := AddPort(t, p, id, gp); r.Ok? ==> r.value !in UsedPorts(t)
  {
    hide PortPool;
  }

  lemma ExposedObjects(s: Site, id: Id, gp: int, hp: int)
    requires TapsTidy(s) && FilesTidy(s, {}) && id in s.t.sandboxes
    ensures var u := Exposed(s, id, gp, hp); TapsTidy(u) && FilesTidy(u, {})
  {
    assert Exposed(s, id, gp, hp).t.sandboxes == s.t.sandboxes;
  }

  lemma ExposedRulesTidy(s: Site, id: Id, gp: int, hp: int)
    requires RulesTidy(s) && id in s.t.sandboxes && (id, gp) !in s.t.ports
    requires forall r | r in s.host.rules :: r.hostPort != hp
    ensures RulesTidy(Exposed(s, id, gp, hp))
  {
    var u := Exposed(s, id, gp, hp);
    forall r | r in u.host.rules ensures u.host.rules[r] == 1 && exists j :: Owns(u.t, j, r) {
      if r in PortRules(s.t.sandboxes[id].ip, hp, gp) {
        assert s.host.rules[r] == 0;
        assert Owns(u.t, id, r);
      } else {
        assert r in s.host.rules;
        var j :| Owns(s.t, j, r);
        assert Owns(u.t, j, r);
      }
    }
  }

  lemma StrippedIsTidy(s: Site, seen: set<Disk>, p: Pools, loose: set<string>, id: Id)
    requires Tidy(s, seen, p, loose) && id in s.t.sandboxes
    ensures Tidy(Stripped(s, id), seen, p, loose)
  {
    DestroyKeepsBook(Book(s.t, seen), p, id);
    StrippedDevices(s, id);
    StrippedRules(s, id);
    StrippedDisks(s, loose, id);
    hide BookInv, TapsTidy, FilesTidy, RulesTidy;
  }

  lemma StrippedDevices(s: Site, id: Id)
    requires TapsTidy(s) && id in s.t.sandboxes
    ensures TapsTidy(Stripped(s, id))
  {
    var u := Stripped(s, id);
    forall tap | tap in u.host.taps ensures exists j :: j in u.t.sandboxes && u.t.sandboxes[j].tap == tap {
      var j :| j in s.t.sandboxes && s.t.sandboxes[j].tap == tap;
      assert u.t.sandboxes[j].tap == tap;
    }
  }

  lemma StrippedDisks(s: Site, loose: set<string>, id: Id)
    requires FilesTidy(s, loose) && id in s.t.sandboxes
    ensures FilesTidy(Stripped(s, id), loose)
  {
    var u := Stripped(s, id);
    forall f | f in u.host.files && f !in loose ensures exists j :: j in u.t.sandboxes && u.t.sandboxes[j].rootfsPath == f {
      var j :| j in s.t.sandboxes && s.t.sandboxes[j].rootfsPath == f;
      assert u.t.sandboxes[j].rootfsPath == f;
    }
  }

  lemma StrippedRules(s: Site, id: Id)
    requires RulesTidy(s) && id in s.t.sandboxes
    ensures RulesTidy(Stripped(s, id))
  {
    var u := Stripped(s, id);
    forall r | r in u.host.rules ensures u.host.rules[r] == 1 && exists j :: Owns(u.t, j, r) {
      assert r in s.host.rules;
      var j :| Owns(s.t, j, r);
      RulesOfIsOwned(s.t, id, r);
      assert j != id;
      assert Owns(u.t, j, r);
    }
  }

  /** Fewer objects for the same rows. */
  lemma FewerIsTidy(s: Site, u: Site, seen: set<Disk>, p: Pools, loose: set<string>)
    requires Tidy(s, seen, p, loose) && u.t == s.t && u.machines <= s.machines
    requires u.host.taps.Keys <= s.host.taps.Keys && u.host.files <= s.host.files && u.host.rules <= s.host.rules
    ensures Tidy(u, seen, p, loose)
  {
    hide BookInv, Owns;
    forall r | r in u.host.rules ensures u.host.rules[r] == 1 && r in s.host.rules {
      assert 1 <= u.host.rules[r] <= s.host.rules[r];
    }
  }

  lemma RemovedTwice(m: multiset<Rule>, a: multiset<Rule>, b: multiset<Rule>)
    requires forall r | r in m :: m[r] == 1
    ensures m - a - b - a - b == m - a - b && m - a - b <= m
  {
    forall r ensures (m - a - b - a - b)[r] == (m - a - b)[r] {
      assert r !in m || m[r] == 1;
    }
  }

  /** A destroy that is cut short before its row goes leaves the server tidy, and can be done again. */
  lemma EmptiedIsTidy(s: Site, seen: set<Disk>, p: Pools, id: Id)
    requires Tidy(s, seen, p, {}) && id in s.t.sandboxes
    ensures Tidy(Emptied(s, id), seen, p, {})
    ensures Stripped(Emptied(s, id), id) == Stripped(s, id)
  {
    hide Tidy, ExtraRules, PrimaryRules;
    assert forall r | r in s.host.rules :: s.host.rules[r] == 1 by {
      OneEach(s, seen, p);
    }
    RemovedTwice(s.host.rules, multiset(ExtraRules(s.t, id)), multiset(PrimaryRules(s.t, id)));
    FewerIsTidy(s, Emptied(s, id), seen, p, {});
    EmptiedAgain(s, id);
  }

  lemma OneEach(s: Site, seen: set<Disk>, p: Pools)
    requires Tidy(s, seen, p, {})
    ensures forall r | r in s.host.rules :: s.host.rules[r] == 1
  {
    hide BookInv;
  }

  lemma EmptiedAgain(s: Site, id: Id)
    requires id in s.t.sandboxes
    requires var e, q := multiset(ExtraRules(s.t, id)), multiset(PrimaryRules(s.t, id));
             s.host.rules - e - q - e - q == s.host.rules - e - q
    ensures Stripped(Emptied(s, id), id) == Stripped(s, id)
  {
    hide ExtraRules, PrimaryRules, WithoutSandbox;
    assert Emptied(s, id).t == s.t;
  }
}
