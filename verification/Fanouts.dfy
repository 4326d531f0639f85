/** What a fan-out adds to the server: clones that are up but not on the network yet, and clones that are live. */
module Fanouts {
  import opened Tables
  import opened Hosts
  import opened Sites

  function TapsOf(rows: map<Id, Sandbox>): set<string> {
    set id | id in rows :: rows[id].tap
  }

  function PathsOf(rows: map<Id, Sandbox>): set<string> {
    set id | id in rows :: rows[id].rootfsPath
  }

  function ForwardsOf(rows: map<Id, Sandbox>): set<Rule> {
    set id, r | id in rows && r in PortRules(rows[id].ip, rows[id].hostPort, PRIMARY_PORT) :: r
  }

  function TapsWith(taps: map<string, bool>, up: set<string>, live: set<string>): map<string, bool> {
    taps + map tap | tap in up + live :: tap in live
  }

  /** s plus the clones: those that are up have a row, a disk and a tap off the bridge; those that are live have their
      tap on the bridge, both rules of their primary port, and a machine. */
  function WithClones(s: Site, up: map<Id, Sandbox>, live: map<Id, Sandbox>): Site {
    Site(s.t.(sandboxes := s.t.sandboxes + up + live),
         Host(TapsWith(s.host.taps, TapsOf(up), TapsOf(live)),
              s.host.rules + multiset(ForwardsOf(live)),
              s.host.files + PathsOf(up) + PathsOf(live)),
         s.machines + live.Keys)
  }

  lemma NoClones(s: Site)
    ensures WithClones(s, map[], map[]) == s
  {
    assert ForwardsOf(map[]) == {};
  }

  /** What one clone has to itself. */
  ghost predicate CloneApart(s: Site, up: map<Id, Sandbox>, live: map<Id, Sandbox>, id: Id)
    requires id in up
  {
    && id !in s.t.sandboxes && id !in live && id !in s.machines && PortKeys(s.t, id) == {}
    && up[id].tap !in s.host.taps && up[id].tap !in TapsOf(up - {id}) && up[id].tap !in TapsOf(live)
    && up[id].rootfsPath !in s.host.files && up[id].rootfsPath !in PathsOf(up - {id}) && up[id].rootfsPath !in PathsOf(live)
    && (forall r | r in s.host.rules :: r.hostPort != up[id].hostPort)
    && (forall r | r in ForwardsOf(live) :: r.hostPort != up[id].hostPort)
  }

  ghost predicate ClonesApart(s: Site, up: map<Id, Sandbox>, live: map<Id, Sandbox>) {
    forall id | id in up :: CloneApart(s, up, live, id)
  }

  lemma SplitRows(rows: map<Id, Sandbox>, id: Id)
    requires id in rows
    ensures TapsOf(rows) == TapsOf(rows - {id}) + {rows[id].tap}
    ensures PathsOf(rows) == PathsOf(rows - {id}) + {rows[id].rootfsPath}
    ensures ForwardsOf(rows) == ForwardsOf(rows - {id}) + PortRules(rows[id].ip, rows[id].hostPort, PRIMARY_PORT)
  {
    var less := rows - {id};
    forall j | j in rows ensures j == id || (j in less && less[j] == rows[j]) {
    }
  }

  lemma AddRow(rows: map<Id, Sandbox>, id: Id, row: Sandbox)
    requires id !in rows
    ensures TapsOf(rows[id := row]) == TapsOf(rows) + {row.tap}
    ensures PathsOf(rows[id := row]) == PathsOf(rows) + {row.rootfsPath}
    ensures ForwardsOf(rows[id := row]) == ForwardsOf(rows) + PortRules(row.ip, row.hostPort, PRIMARY_PORT)
  {
    assert rows[id := row] - {id} == rows;
    SplitRows(rows[id := row], id);
  }

  lemma FewerRows(rows: map<Id, Sandbox>, id: Id)
    ensures TapsOf(rows - {id}) <= TapsOf(rows) && PathsOf(rows - {id}) <= PathsOf(rows)
  {
  }

  // --- maps of rows ---

  lemma UpdateCommutes(rows: map<Id, Sandbox>, j: Id, id: Id, row: Sandbox)
    requires j != id
    ensures rows[id := row] - {j} == (rows - {j})[id := row]
  {
  }

  lemma RemovalsCommute(rows: map<Id, Sandbox>, j: Id, id: Id)
    ensures rows - {id} - {j} == rows - {j} - {id}
  {
  }

  lemma RaisedRows(rows: map<Id, Sandbox>, up: map<Id, Sandbox>, id: Id, row: Sandbox)
    ensures (rows + up + map[])[id := row] == rows + up[id := row] + map[]
  {
  }

  lemma StrippedRows(rows: map<Id, Sandbox>, up: map<Id, Sandbox>, live: map<Id, Sandbox>, id: Id)
    requires id !in rows && id !in live
    ensures rows + up + live - {id} == rows + (up - {id}) + live
  {
  }

  // --- a clone comes up ---

  lemma RaisedClone(s: Site, up: map<Id, Sandbox>, id: Id, row: Sandbox)
    requires id !in up
    ensures Raised(WithClones(s, up, map[]), id, row, false) == WithClones(s, up[id := row], map[])
  {
    hide TapsOf, PathsOf, ForwardsOf, TapsWith;
    AddRow(up, id, row);
    assert TapsOf(map[]) == {} && PathsOf(map[]) == {} by {
      NoRows();
    }
    RaisedTaps(s.host.taps, TapsOf(up), row.tap);
    RaisedRows(s.t.sandboxes, up, id, row);
  }

  lemma RaisedTaps(taps: map<string, bool>, up: set<string>, tap: string)
    ensures TapsWith(taps, up, {})[tap := false] == TapsWith(taps, up + {tap}, {})
  {
  }

  lemma RaisedCloneApart(s: Site, up: map<Id, Sandbox>, id: Id, row: Sandbox)
    requires ClonesApart(s, up, map[]) && id !in up && Clear(WithClones(s, up, map[]), id, row)
    requires forall r | r in s.host.rules :: r.hostPort != row.hostPort
    ensures ClonesApart(s, up[id := row], map[])
  {
    var more := up[id := row];
    hide TapsOf, PathsOf, ForwardsOf, WithClones, CloneApart, Clear;
    ClearOfClones(s, up, id, row);
    forall j | j in up ensures CloneApart(s, more, map[], j) {
      assert CloneApart(s, up, map[], j);
      StaysApartFromUp(s, up, id, row, j);
    }
    FirstApart(s, up, id, row);
  }

  lemma FirstApart(s: Site, up: map<Id, Sandbox>, id: Id, row: Sandbox)
    requires id !in up && Clear(s, id, row) && row.tap !in TapsOf(up) && row.rootfsPath !in PathsOf(up)
    requires forall r | r in s.host.rules :: r.hostPort != row.hostPort
    ensures CloneApart(s, up[id := row], map[], id)
  {
    AddedRow(up, id, row);
    NoRows();
    hide TapsOf, PathsOf, ForwardsOf;
  }

  lemma StaysApartFromUp(s: Site, up: map<Id, Sandbox>, id: Id, row: Sandbox, j: Id)
    requires j in up && CloneApart(s, up, map[], j) && id !in up
    requires row.tap !in TapsOf(up) && row.rootfsPath !in PathsOf(up)
    ensures CloneApart(s, up[id := row], map[], j)
  {
    AddedRow(up, id, row);
    UpdateCommutes(up, j, id, row);
    AddRow(up - {j}, id, row);
    hide TapsOf, PathsOf, ForwardsOf;
  }

  lemma AddedRow(rows: map<Id, Sandbox>, id: Id, row: Sandbox)
    requires id !in rows
    ensures rows[id := row] - {id} == rows
    ensures forall j | j in rows :: rows[j].tap in TapsOf(rows) && rows[j].rootfsPath in PathsOf(rows)
  {
  }

  lemma NoRows()
    ensures TapsOf(map[]) == {} && PathsOf(map[]) == {} && ForwardsOf(map[]) == {}
  {
  }

  lemma ClearOfClones(s: Site, up: map<Id, Sandbox>, id: Id, row: Sandbox)
    requires Clear(WithClones(s, up, map[]), id, row)
    ensures Clear(s, id, row) && row.tap !in TapsOf(up) && row.rootfsPath !in PathsOf(up)
  {
    assert PortKeys(WithClones(s, up, map[]).t, id) == PortKeys(s.t, id);
    hide TapsOf, PathsOf;
  }

  // --- a clone goes live ---

  lemma JoinedClone(s: Site, up: map<Id, Sandbox>, live: map<Id, Sandbox>, id: Id, pid: int)
    requires id in up && CloneApart(s, up, live, id)
    ensures var row := up[id].(pid := pid);
            Joined(WithClones(s, up, live), id, row) == WithClones(s, up - {id}, live[id := row])
  {
    var row := up[id].(pid := pid);
    var a, b := Joined(WithClones(s, up, live), id, row), WithClones(s, up - {id}, live[id := row]);
    JoinedTables(s, up, live, id, row);
    JoinedHost(s, up, live, id, row);
    hide WithClones, Joined, CloneApart;
    assert a == Site(a.t, a.host, a.machines) && b == Site(b.t, b.host, b.machines);
  }

  lemma JoinedTables(s: Site, up: map<Id, Sandbox>, live: map<Id, Sandbox>, id: Id, row: Sandbox)
    ensures var a, b := Joined(WithClones(s, up, live), id, row), WithClones(s, up - {id}, live[id := row]);
            a.t == b.t && a.machines == b.machines
  {
    hide TapsOf, PathsOf, ForwardsOf, TapsWith, PortRules;
    JoinedRows(s.t.sandboxes, up, live, id, row);
    SetFacts(s.machines, live.Keys, id);
  }

  lemma JoinedHost(s: Site, up: map<Id, Sandbox>, live: map<Id, Sandbox>, id: Id, row: Sandbox)
    requires id in up && CloneApart(s, up, live, id) && row == up[id].(pid := row.pid)
    ensures Joined(WithClones(s, up, live), id, row).host == WithClones(s, up - {id}, live[id := row]).host
  {
    SplitRows(up, id);
    AddRow(live, id, row);
    assert ForwardsOf(live) !! PortRules(row.ip, row.hostPort, PRIMARY_PORT);
    hide TapsOf, PathsOf, ForwardsOf, TapsWith, CloneApart, PortRules;
    JoinedTaps(s.host.taps, TapsOf(up - {id}), TapsOf(live), row.tap);
    MovedPath(s.host.files, PathsOf(up - {id}), PathsOf(live), row.rootfsPath);
  }

  lemma SetFacts(machines: set<Id>, live: set<Id>, id: Id)
    ensures machines + live + {id} == machines + (live + {id})
  {
  }

  lemma MovedPath(files: set<string>, up: set<string>, live: set<string>, path: string)
    ensures files + (up + {path}) + live == files + up + (live + {path})
  {
  }

  lemma JoinedTaps(taps: map<string, bool>, up: set<string>, live: set<string>, tap: string)
    ensures TapsWith(taps, up + {tap}, live)[tap := true] == TapsWith(taps, up, live + {tap})
  {
  }

  lemma JoinedRows(rows: map<Id, Sandbox>, up: map<Id, Sandbox>, live: map<Id, Sandbox>, id: Id, row: Sandbox)
    ensures (rows + up + live)[id := row] == rows + (up - {id}) + live[id := row]
  {
  }

  lemma JoinedCloneApart(s: Site, up: map<Id, Sandbox>, live: map<Id, Sandbox>, id: Id, pid: int)
    requires ClonesApart(s, up, live) && id in up
    requires forall j | j in up && j != id :: up[j].hostPort != up[id].hostPort
    ensures ClonesApart(s, up - {id}, live[id := up[id].(pid := pid)])
  {
    var row := up[id].(pid := pid);
    assert CloneApart(s, up, live, id);
    hide CloneApart, TapsOf, PathsOf, ForwardsOf;
    forall j | j in up - {id} ensures CloneApart(s, up - {id}, live[id := row], j) {
      assert CloneApart(s, up, live, j);
      StaysApartFromLive(s, up, live, id, row, j);
    }
  }

  lemma StaysApartFromLive(s: Site, up: map<Id, Sandbox>, live: map<Id, Sandbox>, id: Id, row: Sandbox, j: Id)
    requires id in up && CloneApart(s, up, live, id) && j in up && j != id && CloneApart(s, up, live, j)
    requires row == up[id].(pid := row.pid) && up[j].hostPort != up[id].hostPort
    ensures CloneApart(s, up - {id}, live[id := row], j)
  {
    AddRow(live, id, row);
    RemovalsCommute(up, j, id);
    SplitRows(up - {j}, id);
    hide TapsOf, PathsOf, ForwardsOf;
  }

  // --- a clone is given up ---

  lemma StrippedClone(s: Site, up: map<Id, Sandbox>, live: map<Id, Sandbox>, id: Id)
    requires id in up && CloneApart(s, up, live, id)
    ensures id in WithClones(s, up, live).t.sandboxes
    ensures Stripped(WithClones(s, up, live), id) == WithClones(s, up - {id}, live)
  {
    NoneForwarded(s, up, live, id);
    hide TapsOf, PathsOf, ForwardsOf, TapsWith, PortKeys, ExtraRules, PortRules, CloneApart;
    var w, v := WithClones(s, up, live), WithClones(s, up - {id}, live);
    assert Stripped(w, id).t == v.t && Stripped(w, id).machines == v.machines by {
      StrippedTables(s, up, live, id);
    }
    assert Stripped(w, id).host == v.host by {
      StrippedHost(s, up, live, id);
    }
  }

  lemma StrippedTables(s: Site, up: map<Id, Sandbox>, live: map<Id, Sandbox>, id: Id)
    requires id in up && CloneApart(s, up, live, id)
    ensures var w := WithClones(s, up, live);
            id in w.t.sandboxes && Stripped(w, id).t == WithClones(s, up - {id}, live).t && Stripped(w, id).machines == w.machines
  {
    var w := WithClones(s, up, live);
    NoPortsOf(w.t, s.t, id);
    StrippedRows(s.t.sandboxes, up, live, id);
    hide TapsOf, PathsOf, ForwardsOf, TapsWith, PortKeys, ExtraRules, PortRules;
  }

  lemma StrippedHost(s: Site, up: map<Id, Sandbox>, live: map<Id, Sandbox>, id: Id)
    requires id in up && CloneApart(s, up, live, id)
    ensures var w := WithClones(s, up, live);
            id in w.t.sandboxes && Stripped(w, id).host == WithClones(s, up - {id}, live).host
  {
    var w := WithClones(s, up, live);
    SplitRows(up, id);
    NoneForwarded(s, up, live, id);
    NoPortsOf(w.t, s.t, id);
    hide TapsOf, PathsOf, ForwardsOf, TapsWith, PortKeys, ExtraRules, PortRules, PrimaryRules;
    StrippedTaps(s.host.taps, TapsOf(up - {id}), TapsOf(live), up[id].tap);
    NoneToRemove(w.host.rules, PrimaryRules(w.t, id));
    StrippedPath(s.host.files, PathsOf(up - {id}), PathsOf(live), up[id].rootfsPath);
  }

  lemma NoneForwarded(s: Site, up: map<Id, Sandbox>, live: map<Id, Sandbox>, id: Id)
    requires id in up && CloneApart(s, up, live, id)
    ensures var w := WithClones(s, up, live);
            id in w.t.sandboxes && w.t.sandboxes[id] == up[id] && forall r | r in PrimaryRules(w.t, id) :: r !in w.host.rules
  {
    hide TapsOf, PathsOf, ForwardsOf, TapsWith;
  }

  lemma NoPortsOf(t: Tables, u: Tables, id: Id)
    requires t.ports == u.ports && PortKeys(u, id) == {} && id in t.sandboxes
    ensures PortKeys(t, id) == {} && ExtraRules(t, id) == {} && t.ports - PortKeys(t, id) == u.ports
  {
  }

  lemma StrippedPath(files: set<string>, up: set<string>, live: set<string>, path: string)
    requires path !in files && path !in up && path !in live
    ensures files + (up + {path}) + live - {path} == files + up + live
  {
  }

  lemma StrippedTaps(taps: map<string, bool>, up: set<string>, live: set<string>, tap: string)
    requires tap !in taps && tap !in up && tap !in live
    ensures TapsWith(taps, up + {tap}, live) - {tap} == TapsWith(taps, up, live)
  {
  }

  lemma NoneToRemove(m: multiset<Rule>, rules: set<Rule>)
    requires forall r | r in rules :: r !in m
    ensures m - multiset{} - multiset(rules) == m
  {
  }

  lemma StrippedCloneApart(s: Site, up: map<Id, Sandbox>, live: map<Id, Sandbox>, id: Id)
    requires ClonesApart(s, up, live)
    ensures ClonesApart(s, up - {id}, live)
  {
    forall j | j in up - {id} ensures CloneApart(s, up - {id}, live, j) {
      assert CloneApart(s, up, live, j);
      RemovalsCommute(up, j, id);
      FewerRows(up - {j}, id);
    }
    hide TapsOf, PathsOf;
  }
}
