/** The single commands of which the server's operations are made: what each does to the host, the registry and the
    ledger, and that it keeps the books balanced. */
module Commands {
  import opened Wrappers
  import opened Pools
  import opened Tables
  import opened History
  import opened Hosts
  import opened Ledger

  datatype Command =
    | Idles
      // the own disk of a sandbox that has no row
    | Prepares | Litters | Discards(done: bool)
      // its row
    | InsertsRow(row: Sandbox, laid: bool) | RecordsPid | SetsDeadline(expiresAt: Option<int>) | DeletesRow
      // the disk and the tap of its row
    | LaysDisk | DropsDisk(done: bool) | AddsTap | AttachesTap | DropsTap(done: bool)
      // its rules and extra ports
    | AppendsRule(rule: Rule) | ForsakesRule(rule: Rule) | DropsRule(rule: Rule, done: bool)
    | InsertsPort(guestPort: int, hostPort: int) | RemovesPort(guestPort: int)

  /** Any non-zero process id: the row knows its firecracker process from FinishStart on. */
  const STARTED: int := 1

  function RowOf(c: Core, id: Id): Sandbox {
    if id in c.t.sandboxes then c.t.sandboxes[id] else NO_ROW
  }

  predicate NeedsRow(cmd: Command) {
    cmd.LaysDisk? || cmd.DropsDisk? || cmd.AddsTap? || cmd.AttachesTap? || cmd.DropsTap?
  }

  function Run(c: Core, id: Id, cmd: Command): Core {
    if NeedsRow(cmd) && id !in c.t.sandboxes then c else
    match cmd
    case Idles => c
    case Prepares => LayLoose(c, RootfsPath(id))
    case Litters => Litter(c, RootfsPath(id))
    case Discards(done) => DropLoose(c, RootfsPath(id), done)
    case InsertsRow(row, laid) => InsertRow(c, id, row, laid)
    case RecordsPid => c.(t := WithPid(c.t, id, STARTED))
    case SetsDeadline(e) => c.(t := WithExpiry(c.t, id, e))
    case DeletesRow => RemoveRow(c, id)
    case LaysDisk => LayDisk(c, id)
    case DropsDisk(done) => DropDisk(c, id, done)
    case AddsTap => AddTap(c, id)
    case AttachesTap => AttachTap(c, id)
    case DropsTap(done) => DropTap(c, id, done)
    case AppendsRule(r) => AppendRule(c, r)
    case ForsakesRule(r) => ForsakeRule(c, r)
    case DropsRule(r, done) => DropRule(c, r, done)
    case InsertsPort(gp, hp) => InsertPort(c, id, gp, hp)
    case RemovesPort(gp) => RemovePort(c, id, gp)
  }

  // --- the books ---

  /** What a command needs for the books to stay balanced. */
  ghost predicate Fits(c: Core, p: Pools, id: Id, cmd: Command) {
    match cmd
    case Idles => true
    case Prepares => FreshDisk(c.seen, id)
    case Litters => FreshDisk(c.seen, id)
    case Discards(_) => FreshDisk(c.seen, id) && RootfsPath(id) in c.loose
    case InsertsRow(row, laid) =>
      && id !in c.t.sandboxes && BookInv(Book(WithSandbox(c.t, id, row), c.seen + {DiskOf(row)}), p)
      && (laid ==> row.rootfsPath in c.loose && row.rootfsPath in c.host.files)
    case DeletesRow => id in c.t.sandboxes && id !in c.led.taps && id !in c.led.files
    case LaysDisk => id in c.t.sandboxes && c.t.sandboxes[id].rootfsPath !in c.loose
    case AddsTap => id in c.t.sandboxes && c.t.sandboxes[id].tap !in c.host.taps
    case AttachesTap => id in c.led.taps
    case AppendsRule(r) => Owns(c.t, id, r) && r !in c.led.rules
    case ForsakesRule(r) => Owns(c.t, id, r)
    case DropsRule(r, _) => Owns(c.t, id, r)
    case InsertsPort(gp, hp) => AddPort(c.t, p, id, gp) == Ok(hp)
    case RemovesPort(gp) =>
      && id in c.t.sandboxes && gp != PRIMARY_PORT
      && forall r | r in c.led.rules && Owns(c.t, id, r) :: r.guestPort != gp
    case _ => id in c.t.sandboxes
  }

  lemma SameAsItself(c: Core, id: Id)
    ensures OthersSame(c, c, id)
  {
  }

  lemma UpdateOthers(c: Core, id: Id, row: Sandbox)
    ensures OthersSame(c, c.(t := WithSandbox(c.t, id, row)), id)
  {
  }

  /** A row gets a process id and a deadline. */
  lemma UpdateKeeps(c: Core, p: Pools, id: Id, pid: int, e: Option<int>)
    requires CoreInv(c, p) && id in c.t.sandboxes
    ensures var row := c.t.sandboxes[id].(pid := pid, expiresAt := e);
            CoreInv(c.(t := WithSandbox(c.t, id, row)), p) && OthersSame(c, c.(t := WithSandbox(c.t, id, row)), id)
  {
    hide BookInv, TapsBalance, FilesBalance, RulesBalance, OthersSame;
    var row := c.t.sandboxes[id].(pid := pid, expiresAt := e);
    UpdateKeepsBook(Book(c.t, c.seen), p, id, pid, e);
    TablesAloneKeep(c, p, WithSandbox(c.t, id, row));
    UpdateOthers(c, id, row);
  }

  /** A fresh disk is nobody's. */
  lemma FreshIsNobodys(c: Core, p: Pools, id: Id)
    requires CoreInv(c, p) && FreshDisk(c.seen, id)
    ensures NoRowAt(c, RootfsPath(id)) && NoDiskAt(c, RootfsPath(id))
  {
    hide TapsBalance, FilesBalance, RulesBalance, RootfsPath;
    forall j | j in c.t.sandboxes ensures c.t.sandboxes[j].rootfsPath != RootfsPath(id) {
      assert DiskOf(c.t.sandboxes[j]) in c.seen;
    }
  }

  /** Before the row only the own disk of a sandbox is concerned. */
  lemma OwnDiskKeeps(c: Core, p: Pools, id: Id, cmd: Command)
    requires CoreInv(c, p) && Fits(c, p, id, cmd) && (cmd.Prepares? || cmd.Litters? || cmd.Discards?)
    ensures CoreInv(Run(c, id, cmd), p) && OthersSame(c, Run(c, id, cmd), id)
  {
    hide CoreInv, SameFor, RootfsPath, LayLoose, Litter, DropLoose, NoRowAt, NoDiskAt, FreshDisk;
    FreshIsNobodys(c, p, id);
    UnnamedTouchesNobody(c, RootfsPath(id), cmd.Discards? && cmd.done);
    match cmd
    case Prepares => LayLooseKeeps(c, p, RootfsPath(id));
    case Litters => LitterKeeps(c, p, RootfsPath(id));
    case Discards(done) => DropLooseKeeps(c, p, RootfsPath(id), done);
  }

  /** Whatever command is run for a sandbox: the books stay balanced, and no other sandbox is touched. */
  lemma CommandKeeps(c: Core, p: Pools, id: Id, cmd: Command)
    requires CoreInv(c, p) && Fits(c, p, id, cmd)
    ensures CoreInv(Run(c, id, cmd), p) && OthersSame(c, Run(c, id, cmd), id)
  {
    hide CoreInv, OthersSame, Owns, AddPort, BookInv, FreshDisk, RootfsPath, LayLoose, Litter, DropLoose, InsertRow,
      LayDisk, DropDisk, AddTap, AttachTap, DropTap, AppendRule, ForsakeRule, DropRule, InsertPort, RemovePort,
      RemoveRow;
    match cmd
    case Idles => SameAsItself(c, id);
    case InsertsRow(row, laid) => InsertKeeps(c, p, id, row, laid);
    case RecordsPid =>
      var row := c.t.sandboxes[id];
      UpdateKeeps(c, p, id, STARTED, row.expiresAt);
      assert row.(pid := STARTED, expiresAt := row.expiresAt) == row.(pid := STARTED);
    case SetsDeadline(e) =>
      var row := c.t.sandboxes[id];
      UpdateKeeps(c, p, id, row.pid, e);
      assert row.(pid := row.pid, expiresAt := e) == row.(expiresAt := e);
    case DeletesRow =>
      RemoveRowKeeps(c, p, id);
      RemoveRowOthers(c, p, id);
    case LaysDisk => LayDiskKeeps(c, p, id);
    case DropsDisk(done) => DropDiskKeeps(c, p, id, done);
    case AddsTap => AddTapKeeps(c, p, id);
    case AttachesTap =>
      HolderHasRow(c, p, id);
      AttachTapKeeps(c, p, id);
    case DropsTap(done) => DropTapKeeps(c, p, id, done);
    case AppendsRule(r) => AppendRuleKeeps(c, p, id, r);
    case ForsakesRule(r) => ForsakeRuleKeeps(c, p, id, r);
    case DropsRule(r, done) => DropRuleKeeps(c, p, id, r, done);
    case InsertsPort(gp, hp) =>
      InsertPortKeeps(c, p, id, gp);
      InsertPortOthers(c, id, gp, hp);
    case RemovesPort(gp) =>
      RemovePortKeeps(c, p, id, gp);
      RemovePortOthers(c, id, gp);
    case _ => OwnDiskKeeps(c, p, id, cmd);
  }

  /** A row that the registry hands out fits. */
  lemma CreatedFits(c: Core, p: Pools, id: Id, e: Option<int>, laid: bool)
    requires CoreInv(c, p) && FreshDisk(c.seen, id)
    requires (laid ==> RootfsPath(id) in c.loose && RootfsPath(id) in c.host.files)
    ensures var r := Create(c.t, p, id, RootfsPath(id), e);
            r.Ok? ==> r.value.rootfsPath == RootfsPath(id) && Fits(c, p, id, InsertsRow(r.value, laid))
  {
    CreateKeepsBook(Book(c.t, c.seen), p, id, e);
    CreateKeepsConsistent(c.t, p, id, RootfsPath(id), e);
  }

  lemma RestoredFits(c: Core, p: Pools, id: Id, s: Snapshot, e: Option<int>)
    requires CoreInv(c, p) && BakedDisk(s) in c.seen
    ensures var r := Restored(c.t, p, id, s, e);
            r.Ok? ==> r.value.rootfsPath == s.bakedPath && r.value.ip == s.ip && Fits(c, p, id, InsertsRow(r.value, false))
  {
    RestoreKeepsBook(Book(c.t, c.seen), p, id, s, e);
    CreateRestoreKeepsConsistent(c.t, p, id, s.bakedPath, s.tap, s.ip, e);
  }

  lemma HolderHasRow(c: Core, p: Pools, id: Id)
    requires CoreInv(c, p) && id in c.led.taps
    ensures id in c.t.sandboxes
  {
    hide BookInv, FilesBalance, RulesBalance;
  }

  // --- what a command leaves alone ---

  /** n is m with at most the entry of id changed. */
  ghost predicate OneEntry<V>(m: map<Id, V>, n: map<Id, V>, id: Id) {
    n == m || n == m - {id} || (id in n && n == m[id := n[id]])
  }

  /** The file that a command lays or drops. */
  function FileOf(c: Core, id: Id, cmd: Command): string {
    match cmd
    case InsertsRow(row, _) => row.rootfsPath
    case LaysDisk => RowOf(c, id).rootfsPath
    case DropsDisk(_) => RowOf(c, id).rootfsPath
    case _ => RootfsPath(id)
  }

  predicate BeforeRow(cmd: Command) {
    cmd.Prepares? || cmd.Litters? || cmd.Discards? || cmd.InsertsRow?
  }

  ghost predicate SmallTables(c: Core, d: Core, id: Id, cmd: Command) {
    && OneEntry(c.t.sandboxes, d.t.sandboxes, id) && d.t.snapshots == c.t.snapshots
    && c.seen <= d.seen && (forall x | x in d.seen && x !in c.seen :: cmd.InsertsRow? && x == DiskOf(cmd.row))
  }

  ghost predicate SmallHost(c: Core, d: Core, id: Id, cmd: Command) {
    && c.stray.taps <= d.stray.taps
    && (!BeforeRow(cmd) ==> d.loose == c.loose)
    && (forall f | f != FileOf(c, id, cmd) :: (f in c.host.files <==> f in d.host.files) && (f in c.loose <==> f in d.loose))
    && (!cmd.DropsDisk? && !cmd.Discards? ==> c.host.files <= d.host.files)
  }

  /** One row, one file, and stray taps only more. */
  ghost predicate Small(c: Core, d: Core, id: Id, cmd: Command) {
    SmallTables(c, d, id, cmd) && SmallHost(c, d, id, cmd)
  }

  lemma RunIsSmall(c: Core, id: Id, cmd: Command)
    ensures Small(c, Run(c, id, cmd), id, cmd)
  {
    hide SmallTables, SmallHost;
    TablesAreSmall(c, id, cmd);
    HostIsSmall(c, id, cmd);
  }

  lemma TablesAreSmall(c: Core, id: Id, cmd: Command)
    ensures SmallTables(c, Run(c, id, cmd), id, cmd)
  {
    hide RootfsPath, Owns, WithTap, WithoutTap, WithFile, WithoutFile, WithRule, WithoutRule;
  }

  lemma HostIsSmall(c: Core, id: Id, cmd: Command)
    ensures SmallHost(c, Run(c, id, cmd), id, cmd)
  {
    if BeforeRow(cmd) {
      OwnHostIsSmall(c, id, cmd);
    } else {
      hide RootfsPath, Owns, RulesHeld, WithSandbox, WithoutSandbox, WithPort, WithoutPort, WithPid, WithExpiry,
        InsertRow, LayLoose, DropLoose, Litter;
    }
  }

  lemma OwnHostIsSmall(c: Core, id: Id, cmd: Command)
    requires BeforeRow(cmd)
    ensures SmallHost(c, Run(c, id, cmd), id, cmd)
  {
    hide RootfsPath, WithSandbox, LayDisk, DropDisk, AddTap, AttachTap, DropTap, AppendRule, ForsakeRule, DropRule,
      RemoveRow;
  }
}
