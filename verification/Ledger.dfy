/** Who accounts for what on the host. Beside the registry tables and the host state the model keeps a ledger of the
    objects that each sandbox holds, and a list of strays: objects that a half-failed or interrupted command left
    behind. Every host command keeps the two books balanced. */
module Ledger {
  import opened Pools
  import opened Tables
  import opened History
  import opened Hosts

  /** taps and files hold the sandboxes whose tap or disk is in place; rules the DNAT rules in force. */
  datatype Ledger = Ledger(taps: set<Id>, files: set<Id>, rules: set<Rule>)

  /** What nobody accounts for any more. Taps, rules and files come from a failed clean-up, a half-made port forward
      or a half-made copy; cut holds the files of operations that a crash interrupted before their row existed. */
  datatype Strays = Strays(taps: set<string>, rules: multiset<Rule>, files: set<string>, cut: set<string>)

  /** loose holds the paths at which an operation in progress has laid a file without a row: a disk prepared before its
      registry row, and a frozen disk staged at its baked path for a fan-out. A staged disk can be unlinked under the
      fan-out's hands, when a row without its disk names the same path. */
  datatype Core = Core(t: Tables, seen: set<Disk>, host: Host, led: Ledger, loose: set<string>, stray: Strays)

  const NO_STRAYS := Strays({}, multiset{}, {}, {})
  const EMPTY_CORE := Core(EMPTY, {}, EMPTY_HOST, Ledger({}, {}, {}), {}, NO_STRAYS)

  // --- the balance ---

  ghost predicate TapsBalance(c: Core) {
    && (forall id | id in c.led.taps :: id in c.t.sandboxes && c.t.sandboxes[id].tap in c.host.taps)
    && (forall tap | tap in c.host.taps :: tap in c.stray.taps || exists id :: id in c.led.taps && c.t.sandboxes[id].tap == tap)
  }

  ghost predicate FilesBalance(c: Core) {
    && (forall id | id in c.led.files :: id in c.t.sandboxes && c.t.sandboxes[id].rootfsPath in c.host.files)
    && (forall f | f in c.host.files :: f in c.stray.files || f in c.stray.cut || f in c.loose ||
                                        exists id :: id in c.led.files && c.t.sandboxes[id].rootfsPath == f)
    && (forall id | id in c.led.files :: c.t.sandboxes[id].rootfsPath !in c.loose)
  }

  ghost predicate RulesBalance(c: Core) {
    && (forall r | r in c.led.rules :: c.host.rules[r] >= 1 && exists id :: Owns(c.t, id, r))
    && (forall r | r in c.led.rules :: c.host.rules[r] <= c.stray.rules[r] + 1)
    && (forall r | r !in c.led.rules :: c.host.rules[r] <= c.stray.rules[r])
  }

  ghost predicate CoreInv(c: Core, p: Pools) {
    BookInv(Book(c.t, c.seen), p) && TapsBalance(c) && FilesBalance(c) && RulesBalance(c)
  }

  /** Nothing that belongs to sandbox j differs: its row and ports, its tap, its disk, its rules, its ledger entries. */
  ghost predicate SameFor(c: Core, d: Core, j: Id) {
    SameButDisk(c, d, j) && (c.t.sandboxes[j].rootfsPath in c.host.files <==> c.t.sandboxes[j].rootfsPath in d.host.files)
  }

  /** The same, but for whether there is a file at the disk's path. */
  ghost predicate SameButDisk(c: Core, d: Core, j: Id) {
    && j in c.t.sandboxes && j in d.t.sandboxes && c.t.sandboxes[j] == d.t.sandboxes[j]
    && (forall gp :: (j, gp) in c.t.ports <==> (j, gp) in d.t.ports)
    && (forall gp | (j, gp) in c.t.ports :: c.t.ports[(j, gp)] == d.t.ports[(j, gp)])
    && (j in c.led.taps <==> j in d.led.taps)
    && (j in c.led.files <==> j in d.led.files)
    && (var tap := c.t.sandboxes[j].tap;
        (tap in c.host.taps <==> tap in d.host.taps) && (tap in c.host.taps ==> c.host.taps[tap] == d.host.taps[tap]))
    && (forall r | Owns(c.t, j, r) :: c.host.rules[r] == d.host.rules[r] && (r in c.led.rules <==> r in d.led.rules))
  }

  ghost predicate OthersSame(c: Core, d: Core, id: Id) {
    forall j | j in c.t.sandboxes && j != id :: SameFor(c, d, j)
  }

  // --- host commands on behalf of sandbox id ---

  /** ip tuntap add; it refuses a device that exists. */
  function AddTap(c: Core, id: Id): Core
    requires id in c.t.sandboxes
  {
    c.(host := WithTap(c.host, c.t.sandboxes[id].tap, false), led := c.led.(taps := c.led.taps + {id}))
  }

  function AttachTap(c: Core, id: Id): Core
    requires id in c.t.sandboxes
  {
    c.(host := WithTap(c.host, c.t.sandboxes[id].tap, true))
  }

  /** ip link delete, best effort. */
  function DropTap(c: Core, id: Id, done: bool): Core
    requires id in c.t.sandboxes
  {
    var tap := c.t.sandboxes[id].tap;
    var c := c.(led := c.led.(taps := c.led.taps - {id}));
    if done || tap !in c.host.taps then c.(host := WithoutTap(c.host, tap))
    else c.(stray := c.stray.(taps := c.stray.taps + {tap}))
  }

  /** A copy that lays the disk, whole or in part. */
  function LayDisk(c: Core, id: Id): Core
    requires id in c.t.sandboxes
  {
    c.(host := WithFile(c.host, c.t.sandboxes[id].rootfsPath), led := c.led.(files := c.led.files + {id}))
  }

  function DropDisk(c: Core, id: Id, done: bool): Core
    requires id in c.t.sandboxes
  {
    var path := c.t.sandboxes[id].rootfsPath;
    var c := c.(led := c.led.(files := c.led.files - {id}));
    if done || path !in c.host.files then c.(host := WithoutFile(c.host, path))
    else c.(stray := c.stray.(files := c.stray.files + {path}))
  }

  /** iptables -A. */
  function AppendRule(c: Core, r: Rule): Core {
    c.(host := WithRule(c.host, r), led := c.led.(rules := c.led.rules + {r}))
  }

  /** The caller gives a rule up without deleting it. */
  function ForsakeRule(c: Core, r: Rule): Core {
    if r in c.led.rules then
      c.(led := c.led.(rules := c.led.rules - {r}), stray := c.stray.(rules := c.stray.rules[r := c.stray.rules[r] + 1]))
    else c
  }

  /** iptables -D, best effort: a failed deletion leaves the rule to nobody. */
  function DropRule(c: Core, r: Rule, done: bool): Core {
    if done then c.(host := WithoutRule(c.host, r), led := c.led.(rules := c.led.rules - {r})) else ForsakeRule(c, r)
  }

  lemma AddTapKeeps(c: Core, p: Pools, id: Id)
    requires CoreInv(c, p) && id in c.t.sandboxes && c.t.sandboxes[id].tap !in c.host.taps
    ensures CoreInv(AddTap(c, id), p) && OthersSame(c, AddTap(c, id), id)
  {
    hide BookInv;
    OtherTaps(c, p, id);
  }

  /** Another sandbox's tap, address and disk are other names. */
  lemma OtherTaps(c: Core, p: Pools, id: Id)
    requires BookInv(Book(c.t, c.seen), p) && id in c.t.sandboxes
    ensures forall j | j in c.t.sandboxes && j != id ::
              && c.t.sandboxes[j].tap != c.t.sandboxes[id].tap && c.t.sandboxes[j].ip != c.t.sandboxes[id].ip
              && c.t.sandboxes[j].rootfsPath != c.t.sandboxes[id].rootfsPath
  {
    forall j | j in c.t.sandboxes && j != id
      ensures c.t.sandboxes[j].tap != c.t.sandboxes[id].tap && c.t.sandboxes[j].ip != c.t.sandboxes[id].ip
      ensures c.t.sandboxes[j].rootfsPath != c.t.sandboxes[id].rootfsPath
    {
      assert Apart(c.t.sandboxes[id], c.t.sandboxes[j]);
      if c.t.sandboxes[j].rootfsPath == c.t.sandboxes[id].rootfsPath {
        SamePathSameRow(Book(c.t, c.seen), p, id, j);
      }
    }
  }

  lemma AttachTapKeeps(c: Core, p: Pools, id: Id)
    requires CoreInv(c, p) && id in c.led.taps
    ensures CoreInv(AttachTap(c, id), p) && OthersSame(c, AttachTap(c, id), id)
  {
    hide BookInv;
    OtherTaps(c, p, id);
  }

  lemma DropTapKeeps(c: Core, p: Pools, id: Id, done: bool)
    requires CoreInv(c, p) && id in c.t.sandboxes
    ensures CoreInv(DropTap(c, id, done), p) && OthersSame(c, DropTap(c, id, done), id)
  {
    hide BookInv;
    OtherTaps(c, p, id);
  }

  lemma LayDiskKeeps(c: Core, p: Pools, id: Id)
    requires CoreInv(c, p) && id in c.t.sandboxes && c.t.sandboxes[id].rootfsPath !in c.loose
    ensures CoreInv(LayDisk(c, id), p) && OthersSame(c, LayDisk(c, id), id)
  {
    hide BookInv;
    OtherTaps(c, p, id);
  }

  lemma DropDiskKeeps(c: Core, p: Pools, id: Id, done: bool)
    requires CoreInv(c, p) && id in c.t.sandboxes
    ensures CoreInv(DropDisk(c, id, done), p) && OthersSame(c, DropDisk(c, id, done), id)
  {
    hide BookInv;
    OtherTaps(c, p, id);
  }

  lemma AppendRuleKeeps(c: Core, p: Pools, id: Id, r: Rule)
    requires CoreInv(c, p) && Owns(c.t, id, r) && r !in c.led.rules
    ensures CoreInv(AppendRule(c, r), p) && OthersSame(c, AppendRule(c, r), id)
  {
    AppendBalance(c, id, r);
    AppendOthers(c, p, id, r);
    hide BookInv, Owns, TapsBalance, FilesBalance, RulesBalance, OthersSame;
  }

  lemma AppendBalance(c: Core, id: Id, r: Rule)
    requires TapsBalance(c) && FilesBalance(c) && RulesBalance(c) && Owns(c.t, id, r) && r !in c.led.rules
    ensures var d := AppendRule(c, r); TapsBalance(d) && FilesBalance(d) && RulesBalance(d)
  {
    hide Owns;
  }

  lemma AppendOthers(c: Core, p: Pools, id: Id, r: Rule)
    requires CoreInv(c, p) && Owns(c.t, id, r)
    ensures OthersSame(c, AppendRule(c, r), id)
  {
    hide BookInv, TapsBalance, FilesBalance, RulesBalance;
    OtherTaps(c, p, id);
  }

  lemma ForsakeRuleKeeps(c: Core, p: Pools, id: Id, r: Rule)
    requires CoreInv(c, p) && Owns(c.t, id, r)
    ensures CoreInv(ForsakeRule(c, r), p) && OthersSame(c, ForsakeRule(c, r), id)
  {
    hide BookInv;
    OtherTaps(c, p, id);
  }

  lemma DropRuleKeeps(c: Core, p: Pools, id: Id, r: Rule, done: bool)
    requires CoreInv(c, p) && Owns(c.t, id, r)
    ensures CoreInv(DropRule(c, r, done), p) && OthersSame(c, DropRule(c, r, done), id)
  {
    if done {
      DeleteRuleBalance(c, p, r);
      DeleteRuleOthers(c, p, id, r);
      hide CoreInv, OthersSame, DropRule;
    } else {
      ForsakeRuleKeeps(c, p, id, r);
      hide CoreInv, OthersSame;
    }
  }

  lemma DeleteRuleBalance(c: Core, p: Pools, r: Rule)
    requires CoreInv(c, p)
    ensures CoreInv(DropRule(c, r, true), p)
  {
    hide BookInv, Owns;
    var d := DropRule(c, r, true);
    assert forall x | x != r :: d.host.rules[x] == c.host.rules[x];
    assert d.host.rules[r] <= c.stray.rules[r];
    assert TapsBalance(d) && FilesBalance(d);
    hide TapsBalance, FilesBalance;
  }

  lemma DeleteRuleOthers(c: Core, p: Pools, id: Id, r: Rule)
    requires CoreInv(c, p) && Owns(c.t, id, r)
    ensures OthersSame(c, DropRule(c, r, true), id)
  {
    OtherTaps(c, p, id);
    hide CoreInv;
    assert forall j | j in c.t.sandboxes && j != id :: !Owns(c.t, j, r);
    DeletedForOthers(c, id, r);
  }

  lemma DeletedForOthers(c: Core, id: Id, r: Rule)
    requires forall j | j in c.t.sandboxes && j != id :: !Owns(c.t, j, r)
    ensures OthersSame(c, DropRule(c, r, true), id)
  {
    hide Owns;
    var d := DropRule(c, r, true);
    assert d.t == c.t;
    assert forall x | x != r :: d.host.rules[x] == c.host.rules[x];
  }

  // --- registry transactions ---

  /** The row of a new sandbox; laid says that its disk was prepared beforehand. */
  function InsertRow(c: Core, id: Id, row: Sandbox, laid: bool): Core {
    var c := c.(t := WithSandbox(c.t, id, row), seen := c.seen + {DiskOf(row)});
    if laid then c.(led := c.led.(files := c.led.files + {id}), loose := c.loose - {row.rootfsPath}) else c
  }

  /** The rules in force that only the rows of this sandbox account for. */
  function RulesHeld(c: Core, id: Id): set<Rule> {
    set r | r in c.led.rules && Owns(c.t, id, r)
  }

  /** The sandbox gives up the rules it still holds, without deleting them. */
  function AbandonRules(c: Core, id: Id): Core {
    c.(led := c.led.(rules := c.led.rules - RulesHeld(c, id)),
    stray := c.stray.(rules := c.stray.rules + multiset(RulesHeld(c, id))))
  }

  function RemoveRow(c: Core, id: Id): Core {
    AbandonRules(c, id).(t := WithoutSandbox(c.t, id))
  }

  function InsertPort(c: Core, id: Id, guestPort: int, hostPort: int): Core {
    c.(t := WithPort(c.t, id, guestPort, hostPort))
  }

  function RemovePort(c: Core, id: Id, guestPort: int): Core {
    c.(t := WithoutPort(c.t, id, guestPort))
  }

  lemma InsertKeeps(c: Core, p: Pools, id: Id, row: Sandbox, laid: bool)
    requires CoreInv(c, p) && id !in c.t.sandboxes
    requires BookInv(Book(WithSandbox(c.t, id, row), c.seen + {DiskOf(row)}), p)
    requires laid ==> row.rootfsPath in c.loose && row.rootfsPath in c.host.files
    ensures CoreInv(InsertRow(c, id, row, laid), p) && OthersSame(c, InsertRow(c, id, row, laid), id)
  {
    InsertBalance(c, id, row, laid);
    InsertOthers(c, id, row, laid);
    hide BookInv, TapsBalance, FilesBalance, RulesBalance, OthersSame;
  }

  lemma InsertBalance(c: Core, id: Id, row: Sandbox, laid: bool)
    requires TapsBalance(c) && FilesBalance(c) && RulesBalance(c) && id !in c.t.sandboxes
    requires laid ==> row.rootfsPath in c.loose && row.rootfsPath in c.host.files
    ensures var d := InsertRow(c, id, row, laid); TapsBalance(d) && FilesBalance(d) && RulesBalance(d)
  {
    InsertOwners(c.t, id, row);
    hide Owns;
  }

  lemma InsertOwners(t: Tables, id: Id, row: Sandbox)
    requires id !in t.sandboxes
    ensures forall j, r | Owns(t, j, r) :: Owns(WithSandbox(t, id, row), j, r)
  {
  }

  lemma InsertOthers(c: Core, id: Id, row: Sandbox, laid: bool)
    requires id !in c.t.sandboxes
    ensures OthersSame(c, InsertRow(c, id, row, laid), id)
  {
  }

  /** Only the tables change, and what the ledger holds keeps its owner. */
  lemma BalanceFollows(c: Core, d: Core)
    requires TapsBalance(c) && FilesBalance(c) && RulesBalance(c)
    requires d.host == c.host && d.led == c.led && d.loose == c.loose && d.stray == c.stray
    requires forall j | j in c.led.taps || j in c.led.files :: j in d.t.sandboxes && d.t.sandboxes[j] == c.t.sandboxes[j]
    requires forall j | j in d.t.sandboxes :: j in c.t.sandboxes && d.t.sandboxes[j] == c.t.sandboxes[j]
    requires forall j, r | r in c.led.rules && Owns(c.t, j, r) :: Owns(d.t, j, r)
    ensures TapsBalance(d) && FilesBalance(d) && RulesBalance(d)
  {
    hide Owns;
  }

  lemma HoldersHaveRows(c: Core)
    requires TapsBalance(c) && FilesBalance(c)
    ensures forall j | j in c.led.taps || j in c.led.files :: j in c.t.sandboxes
  {
  }

  lemma RemoveRowOwners(t: Tables, id: Id)
    ensures forall j, r | j != id && Owns(t, j, r) :: Owns(WithoutSandbox(t, id), j, r)
  {
  }

  lemma AbandonKeeps(c: Core, p: Pools, id: Id)
    requires CoreInv(c, p)
    ensures CoreInv(AbandonRules(c, id), p)
  {
    hide BookInv, Owns;
    var d := AbandonRules(c, id);
    assert forall r :: d.stray.rules[r] == c.stray.rules[r] + if r in RulesHeld(c, id) then 1 else 0;
    hide RulesHeld;
  }

  lemma AbandonRest(c: Core, id: Id)
    ensures var b := AbandonRules(c, id);
            && b.t == c.t && b.seen == c.seen && b.host == c.host && b.loose == c.loose && b.led == c.led.(rules := b.led.rules)
            && forall r :: r in b.led.rules <==> r in c.led.rules && !Owns(c.t, id, r)
  {
    hide Owns;
  }

  lemma RemoveRowKeeps(c: Core, p: Pools, id: Id)
    requires CoreInv(c, p) && id in c.t.sandboxes && id !in c.led.taps && id !in c.led.files
    ensures CoreInv(RemoveRow(c, id), p)
  {
    hide BookInv, TapsBalance, FilesBalance, RulesBalance, Owns, AbandonRules, WithoutSandbox;
    var b, d := AbandonRules(c, id), RemoveRow(c, id);
    AbandonRest(c, id);
    DestroyKeepsBook(Book(c.t, c.seen), p, id);
    AbandonKeeps(c, p, id);
    RemoveRowOwners(c.t, id);
    HoldersHaveRows(b);
    OtherRowsStay(c.t, id);
    BalanceFollows(b, d);
  }

  lemma OtherRowsStay(t: Tables, id: Id)
    ensures forall j | j in t.sandboxes && j != id :: j in WithoutSandbox(t, id).sandboxes
    ensures forall j | j in WithoutSandbox(t, id).sandboxes :: j in t.sandboxes
                                                               && WithoutSandbox(t, id).sandboxes[j] == t.sandboxes[j]
  {
  }

  lemma RemoveRowOthers(c: Core, p: Pools, id: Id)
    requires CoreInv(c, p) && id in c.t.sandboxes
    ensures OthersSame(c, RemoveRow(c, id), id)
  {
    hide BookInv, TapsBalance, FilesBalance, RulesBalance, AbandonRules;
    OtherTaps(c, p, id);
    AbandonRest(c, id);
  }

  lemma InsertPortOwners(t: Tables, p: Pools, id: Id, gp: int)
    ensures var r := AddPort(t, p, id, gp);
            r.Ok? ==> forall j, x | Owns(t, j, x) :: Owns(WithPort(t, id, gp, r.value), j, x)
  {
    hide PortPool, FirstFree, UsedPorts;
  }

  lemma InsertPortKeeps(c: Core, p: Pools, id: Id, gp: int)
    requires CoreInv(c, p)
    ensures var r := AddPort(c.t, p, id, gp);
            r.Ok? ==> CoreInv(InsertPort(c, id, gp, r.value), p)
  {
    var r := AddPort(c.t, p, id, gp);
    if r.Ok? {
      var d := InsertPort(c, id, gp, r.value);
      assert BookInv(Book(d.t, c.seen), p) by {
        AddPortKeepsBook(Book(c.t, c.seen), p, id, gp);
      }
      hide BookInv, TapsBalance, FilesBalance, RulesBalance, Owns, AddPort;
      InsertPortOwners(c.t, p, id, gp);
      HoldersHaveRows(c);
      BalanceFollows(c, d);
    }
  }

  lemma InsertPortOthers(c: Core, id: Id, gp: int, hp: int)
    ensures OthersSame(c, InsertPort(c, id, gp, hp), id)
  {
  }

  lemma RemovePortOwners(t: Tables, id: Id, gp: int)
    requires gp != PRIMARY_PORT
    ensures forall j, r | Owns(t, j, r) && (j != id || r.guestPort != gp) :: Owns(WithoutPort(t, id, gp), j, r)
  {
  }

  lemma RemovePortKeeps(c: Core, p: Pools, id: Id, gp: int)
    requires CoreInv(c, p) && id in c.t.sandboxes && gp != PRIMARY_PORT
    requires forall r | r in c.led.rules && Owns(c.t, id, r) :: r.guestPort != gp
    ensures CoreInv(RemovePort(c, id, gp), p)
  {
    var d := RemovePort(c, id, gp);
    assert BookInv(Book(d.t, c.seen), p) by {
      DeletePortKeepsBook(Book(c.t, c.seen), p, id, gp);
    }
    hide BookInv, TapsBalance, FilesBalance, RulesBalance, Owns;
    RemovePortOwners(c.t, id, gp);
    HoldersHaveRows(c);
    BalanceFollows(c, d);
  }

  lemma RemovePortOthers(c: Core, id: Id, gp: int)
    ensures OthersSame(c, RemovePort(c, id, gp), id)
  {
  }

  // --- files without a row ---

  function LayLoose(c: Core, path: string): Core {
    c.(host := WithFile(c.host, path), loose := c.loose + {path})
  }

  function DropLoose(c: Core, path: string, done: bool): Core {
    var c := c.(loose := c.loose - {path});
    if done || path !in c.host.files then c.(host := WithoutFile(c.host, path))
    else c.(stray := c.stray.(files := c.stray.files + {path}))
  }

  /** A copy failed half-way and nobody removes what it left. */
  function Litter(c: Core, path: string): Core {
    c.(host := WithFile(c.host, path), stray := c.stray.(files := c.stray.files + {path}))
  }

  /** A crash forgets the operations in progress, and with them the files they had laid without a row. */
  function CutLoose(c: Core): Core {
    c.(loose := {}, stray := c.stray.(cut := c.stray.cut + c.loose))
  }

  ghost predicate NoRowAt(c: Core, path: string) {
    forall id | id in c.t.sandboxes :: c.t.sandboxes[id].rootfsPath != path
  }

  /** No sandbox has its disk there; a row without its disk may name the path. */
  ghost predicate NoDiskAt(c: Core, path: string) {
    forall id | id in c.led.files && id in c.t.sandboxes :: c.t.sandboxes[id].rootfsPath != path
  }

  ghost predicate AllSame(c: Core, d: Core) {
    forall j | j in c.t.sandboxes :: SameFor(c, d, j)
  }

  ghost predicate AllSameButDisks(c: Core, d: Core) {
    forall j | j in c.t.sandboxes :: SameButDisk(c, d, j)
  }

  lemma LayLooseKeeps(c: Core, p: Pools, path: string)
    requires CoreInv(c, p) && NoDiskAt(c, path)
    ensures CoreInv(LayLoose(c, path), p) && AllSameButDisks(c, LayLoose(c, path))
  {
    hide BookInv;
  }

  lemma DropLooseKeeps(c: Core, p: Pools, path: string, done: bool)
    requires CoreInv(c, p) && path in c.loose
    ensures CoreInv(DropLoose(c, path, done), p) && AllSameButDisks(c, DropLoose(c, path, done))
  {
    hide BookInv;
  }

  lemma LitterKeeps(c: Core, p: Pools, path: string)
    requires CoreInv(c, p)
    ensures CoreInv(Litter(c, path), p) && AllSameButDisks(c, Litter(c, path))
  {
    hide BookInv;
  }

  /** Laying a file where there is none leaves exactly those sandboxes alone whose rows do not name the path. */
  lemma LayingTouches(c: Core, path: string, j: Id)
    requires j in c.t.sandboxes && path !in c.host.files
    ensures SameFor(c, LayLoose(c, path), j) <==> c.t.sandboxes[j].rootfsPath != path
    ensures SameFor(c, Litter(c, path), j) <==> c.t.sandboxes[j].rootfsPath != path
  {
  }

  /** And so does unlinking one. */
  lemma UnlinkingTouches(c: Core, path: string, done: bool, j: Id)
    requires j in c.t.sandboxes
    ensures SameFor(c, DropLoose(c, path, done), j) <==> !(done && path in c.host.files && c.t.sandboxes[j].rootfsPath == path)
  {
  }

  /** Where no row names the path no sandbox notices. */
  lemma UnnamedTouchesNobody(c: Core, path: string, done: bool)
    requires NoRowAt(c, path)
    ensures AllSame(c, LayLoose(c, path)) && AllSame(c, Litter(c, path)) && AllSame(c, DropLoose(c, path, done))
  {
  }

  lemma CutLooseKeeps(c: Core, p: Pools)
    requires CoreInv(c, p)
    ensures CoreInv(CutLoose(c), p) && AllSame(c, CutLoose(c))
  {
    hide BookInv;
  }

  // --- updates of the tables alone ---

  /** Same sandboxes up to pid and deadline, same ports: the balance does not depend on anything else. */
  lemma TablesAloneKeep(c: Core, p: Pools, t: Tables)
    requires CoreInv(c, p) && BookInv(Book(t, c.seen), p)
    requires t.sandboxes.Keys == c.t.sandboxes.Keys && t.ports == c.t.ports
    requires forall id | id in t.sandboxes :: DiskOf(t.sandboxes[id]) == DiskOf(c.t.sandboxes[id])
                                              && t.sandboxes[id].hostPort == c.t.sandboxes[id].hostPort
    ensures CoreInv(c.(t := t), p)
  {
    hide BookInv;
    assert forall j, r :: Owns(c.t, j, r) <==> Owns(t, j, r);
    assert forall id | id in t.sandboxes :: t.sandboxes[id].tap == DiskOf(c.t.sandboxes[id]).tap;
    assert forall id | id in t.sandboxes :: t.sandboxes[id].rootfsPath == DiskOf(c.t.sandboxes[id]).path;
  }
}
