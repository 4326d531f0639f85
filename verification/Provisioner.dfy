/** The commands of internal/provisioner/provisioner.go on the host state. A command may fail; best-effort clean-up
    commands succeed on what exists and do nothing to what does not. */
module Provisioner {
  import opened Hosts

  class Provisioner {
    var taps: map<string, bool>
    var rules: multiset<Rule>
    var files: set<string>

    function State(): Host
      reads this
    {
      Host(taps, rules, files)
    }

    /** The surroundings are reliable: no command fails, nothing is cancelled, every guest answers. */
    const reliable: bool

    constructor (reliable: bool)
      ensures State() == EMPTY_HOST && this.reliable == reliable
    {
      this.reliable := reliable;
      taps, rules, files := map[], multiset{}, {};
    }

    /** CloneFile: cp, which may break off and leave a part of the file. */
    method CopyFile(path: string) returns (out: Outcome)
      modifies this
      ensures State() == if out.Failed? then old(State()) else WithFile(old(State()), path)
      ensures reliable ==> out.Done?
    {
      out := *;
      if reliable {
        out := Done;
      }
      if !out.Failed? {
        files := files + {path};
      }
    }

    method RemoveFile(path: string)
      modifies this
      ensures State() == WithoutFile(old(State()), path)
    {
      files := files - {path};
    }

    /** ip tuntap add, which refuses a device that exists, and ip link set up. */
    method CreateTapUnbridged(tap: string) returns (out: Outcome)
      modifies this
      ensures State() == if out.Failed? then old(State()) else WithTap(old(State()), tap, false)
      ensures tap in old(taps) ==> out.Failed?
      ensures reliable && tap !in old(taps) ==> out.Done?
    {
      out := *;
      if reliable {
        out := Done;
      }
      if tap in taps {
        out := Failed;
      }
      if !out.Failed? {
        taps := taps[tap := false];
      }
    }

    method AttachTapToBridge(tap: string) returns (ok: bool)
      modifies this
      ensures State() == if ok then WithTap(old(State()), tap, true) else old(State())
      ensures tap !in old(taps) ==> !ok
      ensures reliable && tap in old(taps) ==> ok
    {
      ok := *;
      ok := ok || reliable;
      if tap !in taps {
        ok := false;
      }
      if ok {
        taps := taps[tap := true];
      }
    }

    method CreateTap(tap: string) returns (out: Outcome)
      modifies this
      ensures match out
              case Done => State() == WithTap(old(State()), tap, true)
              case Half => State() == WithTap(old(State()), tap, false)
              case Failed => State() == old(State())
      ensures tap in old(taps) ==> out.Failed?
      ensures reliable && tap !in old(taps) ==> out.Done?
    {
      out := CreateTapUnbridged(tap);
      if out.Done? {
        var ok := AttachTapToBridge(tap);
        if !ok {
          return Half;
        }
        assert old(taps)[tap := false][tap := true] == old(taps)[tap := true];
      }
    }

    method DeleteTap(tap: string)
      modifies this
      ensures State() == WithoutTap(old(State()), tap)
    {
      taps := taps - {tap};
    }

    /** Two iptables commands; when the second fails the first is not taken back. */
    method AddPortForwardTo(hostPort: int, ip: string, guestPort: int) returns (out: Outcome)
      modifies this
      ensures match out
              case Done => State() == old(State()).(rules := old(rules) + multiset(PortRules(ip, hostPort, guestPort)))
              case Half => State() == old(State()).(rules := old(rules) + multiset{Rule(Prerouting, hostPort, ip, guestPort)})
              case Failed => State() == old(State())
      ensures reliable ==> out.Done?
    {
      var first, second: bool := *, *;
      first, second := first || reliable, second || reliable;
      if !first {
        return Failed;
      }
      rules := rules + multiset{Rule(Prerouting, hostPort, ip, guestPort)};
      if !second {
        return Half;
      }
      rules := rules + multiset{Rule(Output, hostPort, ip, guestPort)};
      BothRules(old(rules), hostPort, ip, guestPort);
      return Done;
    }

    method RemovePortForwardTo(hostPort: int, ip: string, guestPort: int)
      modifies this
      ensures State() == old(State()).(rules := old(rules) - multiset(PortRules(ip, hostPort, guestPort)))
    {
      BothRules(rules, hostPort, ip, guestPort);
      rules := rules - multiset{Rule(Prerouting, hostPort, ip, guestPort)};
      rules := rules - multiset{Rule(Output, hostPort, ip, guestPort)};
    }
  }

  lemma BothRules(m: multiset<Rule>, hostPort: int, ip: string, guestPort: int)
    ensures m - multiset{Rule(Prerouting, hostPort, ip, guestPort)} - multiset{Rule(Output, hostPort, ip, guestPort)}
         == m - multiset(PortRules(ip, hostPort, guestPort))
    ensures m + multiset{Rule(Prerouting, hostPort, ip, guestPort)} + multiset{Rule(Output, hostPort, ip, guestPort)}
         == m + multiset(PortRules(ip, hostPort, guestPort))
  {
  }
}
