/** The host state that the provisioner changes (internal/provisioner/provisioner.go): tap devices, DNAT rules and
    rootfs files. Only the effect of each command is modelled. */
module Hosts {
  import opened Tables

  /** One exposed port is a pair of rules: PREROUTING for external clients, OUTPUT for loopback clients. */
  datatype Chain = Prerouting | Output

  datatype Rule = Rule(chain: Chain, hostPort: int, ip: string, guestPort: int)

  /** taps maps each device to whether it is attached to the bridge. iptables appends duplicates, so rules count. */
  datatype Host = Host(taps: map<string, bool>, rules: multiset<Rule>, files: set<string>)

  /** How a command ends. Half: a copy, a device or a port forward was left half made, or a best-effort deletion failed. */
  datatype Outcome = Done | Failed | Half

  const EMPTY_HOST := Host(map[], multiset{}, {})

  /** The guest port that every sandbox forwards from the start. */
  const PRIMARY_PORT: int := 3000

  function WithTap(h: Host, tap: string, bridged: bool): Host {
    h.(taps := h.taps[tap := bridged])
  }

  function WithoutTap(h: Host, tap: string): Host {
    h.(taps := h.taps - {tap})
  }

  function WithRule(h: Host, r: Rule): Host {
    h.(rules := h.rules[r := h.rules[r] + 1])
  }

  /** iptables -D removes one copy, or fails when there is none. */
  function WithoutRule(h: Host, r: Rule): Host {
    if h.rules[r] == 0 then h else h.(rules := h.rules[r := h.rules[r] - 1])
  }

  function WithFile(h: Host, path: string): Host {
    h.(files := h.files + {path})
  }

  function WithoutFile(h: Host, path: string): Host {
    h.(files := h.files - {path})
  }

  /** The rule is one that the rows of this sandbox call for. */
  predicate Owns(t: Tables, id: Id, r: Rule) {
    && id in t.sandboxes
    && r.ip == t.sandboxes[id].ip
    && (|| (r.guestPort == PRIMARY_PORT && r.hostPort == t.sandboxes[id].hostPort)
        || ((id, r.guestPort) in t.ports && r.hostPort == t.ports[(id, r.guestPort)]))
  }

  function PortRules(ip: string, hostPort: int, guestPort: int): set<Rule> {
    {Rule(Prerouting, hostPort, ip, guestPort), Rule(Output, hostPort, ip, guestPort)}
  }

  function PrimaryRules(t: Tables, id: Id): set<Rule>
    requires id in t.sandboxes
  {
    PortRules(t.sandboxes[id].ip, t.sandboxes[id].hostPort, PRIMARY_PORT)
  }

  function ExtraRules(t: Tables, id: Id): set<Rule>
    requires id in t.sandboxes
  {
    (set k | k in PortKeys(t, id) :: Rule(Prerouting, t.ports[k], t.sandboxes[id].ip, k.1)) +
    (set k | k in PortKeys(t, id) :: Rule(Output, t.ports[k], t.sandboxes[id].ip, k.1))
  }

  /** All the rules of a sandbox, as a set. */
  function RulesOf(t: Tables, id: Id): set<Rule>
    requires id in t.sandboxes
  {
    PrimaryRules(t, id) + ExtraRules(t, id)
  }

  lemma RulesOfIsOwned(t: Tables, id: Id, r: Rule)
    requires id in t.sandboxes
    ensures r in RulesOf(t, id) <==> Owns(t, id, r)
  {
    assert r == Rule(r.chain, r.hostPort, r.ip, r.guestPort);
    assert r.chain == Prerouting || r.chain == Output;
    if Owns(t, id, r) && r !in PrimaryRules(t, id) {
      assert (id, r.guestPort) in PortKeys(t, id);
    }
  }

  /** The address of a rule tells its owner: no rule belongs to two sandboxes. */
  lemma OneOwner(t: Tables, i: Id, j: Id, r: Rule)
    requires Consistent(t) && Owns(t, i, r) && j in t.sandboxes && r.ip == t.sandboxes[j].ip
    ensures i == j
  {
    assert i == j || Apart(t.sandboxes[i], t.sandboxes[j]);
  }
}
