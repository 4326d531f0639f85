/** Greedy placement on the least loaded host: what it achieves over many creates. */
module Placement {
  import opened Tables
  import opened Routing
  import opened Gateway

  // --- free slots as numbers ---

  function Sum(v: seq<nat>): nat {
    if v == [] then 0 else v[0] + Sum(v[1..])
  }

  /** i is one of the fullest entries, and not empty. */
  ghost predicate Picks(v: seq<nat>, i: nat) {
    i < |v| && v[i] > 0 && forall j | 0 <= j < |v| :: v[j] <= v[i]
  }

  function Charged(v: seq<nat>, i: nat): seq<nat>
    requires i < |v| && v[i] > 0
  {
    v[i := v[i] - 1]
  }

  /** Each choice is greedy at its time. */
  ghost predicate Greedy(v: seq<nat>, picks: seq<nat>)
    decreases |picks|, 0
  {
    picks == [] || (Greedy(v, picks[..|picks| - 1]) && Picks(Placed(v, picks[..|picks| - 1]), picks[|picks| - 1]))
  }

  ghost function Placed(v: seq<nat>, picks: seq<nat>): (r: seq<nat>)
    requires Greedy(v, picks)
    ensures |r| == |v|
    decreases |picks|, 1
  {
    if picks == [] then v else Charged(Placed(v, picks[..|picks| - 1]), picks[|picks| - 1])
  }

  lemma {:induction false} SumUpdate(v: seq<nat>, i: nat, x: nat)
    requires i < |v|
    ensures Sum(v[i := x]) == Sum(v) - v[i] + x
  {
    if i == 0 {
      assert v[0 := x][1..] == v[1..];
    } else {
      assert v[i := x][1..] == v[1..][i - 1 := x];
      SumUpdate(v[1..], i - 1, x);
    }
  }

  /** The state before the last choice, and the choice. */
  lemma LastPick(v: seq<nat>, picks: seq<nat>)
    requires Greedy(v, picks) && picks != []
    ensures var front, last := picks[..|picks| - 1], picks[|picks| - 1];
            && picks == front + [last] && Greedy(v, front) && Picks(Placed(v, front), last)
            && Placed(v, picks) == Charged(Placed(v, front), last)
  {
  }

  lemma {:induction false} PlacedSum(v: seq<nat>, picks: seq<nat>)
    requires Greedy(v, picks)
    ensures Sum(Placed(v, picks)) == Sum(v) - |picks|
    decreases |picks|
  {
    if picks != [] {
      LastPick(v, picks);
      hide Greedy, Placed, Sum;
      var front, last := picks[..|picks| - 1], picks[|picks| - 1];
      PlacedSum(v, front);
      var w := Placed(v, front);
      SumUpdate(w, last, w[last] - 1);
    }
  }

  lemma {:induction false} PlacedFrame(v: seq<nat>, picks: seq<nat>)
    requires Greedy(v, picks)
    ensures forall i | 0 <= i < |v| :: Placed(v, picks)[i] <= v[i] && (i !in picks ==> Placed(v, picks)[i] == v[i])
    decreases |picks|
  {
    if picks != [] {
      LastPick(v, picks);
      hide Greedy, Placed;
      PlacedFrame(v, picks[..|picks| - 1]);
    }
  }

  lemma {:induction false} PlacedBalance(v: seq<nat>, picks: seq<nat>)
    requires Greedy(v, picks)
    ensures forall i, j | i in picks && 0 <= j < |v| :: 0 <= i < |v| && Placed(v, picks)[j] <= Placed(v, picks)[i] + 1
    decreases |picks|
  {
    if picks != [] {
      LastPick(v, picks);
      hide Greedy, Placed;
      PlacedBalance(v, picks[..|picks| - 1]);
    }
  }

  /** The choices are balanced: whoever received one is at most one slot short of the emptiest host. */
  lemma Balanced(v: seq<nat>, picks: seq<nat>)
    requires Greedy(v, picks)
    ensures var r := Placed(v, picks);
            && Sum(r) == Sum(v) - |picks|
            && (forall i | 0 <= i < |v| :: r[i] <= v[i] && (i !in picks ==> r[i] == v[i]))
            && (forall i, j | i in picks && 0 <= j < |v| :: 0 <= i < |v| && r[j] <= r[i] + 1)
  {
    hide Greedy, Placed, Sum;
    PlacedSum(v, picks);
    PlacedFrame(v, picks);
    PlacedBalance(v, picks);
  }

  lemma {:induction false} SumDominates(a: seq<nat>, b: seq<nat>)
    requires |a| == |b| && forall i | 0 <= i < |a| :: a[i] >= b[i]
    ensures Sum(a) >= Sum(b)
    ensures Sum(a) == Sum(b) ==> a == b
  {
    if a != [] {
      SumDominates(a[1..], b[1..]);
      assert a == [a[0]] + a[1..] && b == [b[0]] + b[1..];
    }
  }

  lemma {:induction false} SumOfDifference(v: seq<nat>, r: seq<nat>, a: seq<nat>)
    requires |v| == |r| == |a| && forall i | 0 <= i < |v| :: v[i] == r[i] + a[i]
    ensures Sum(v) == Sum(r) + Sum(a)
  {
    if v != [] {
      SumOfDifference(v[1..], r[1..], a[1..]);
    }
  }

  /** However else the same number of sandboxes is spread over the hosts, some host then has at least as many free
      slots as any host has after the greedy placement. */
  lemma NoSpreadIsFlatter(v: seq<nat>, picks: seq<nat>, other: seq<nat>)
    requires Greedy(v, picks)
    requires |other| == |v| && Sum(other) == Sum(v) - |picks| && forall i | 0 <= i < |v| :: other[i] <= v[i]
    ensures forall i | 0 <= i < |v| :: exists j :: 0 <= j < |v| && other[j] >= Placed(v, picks)[i]
  {
    Balanced(v, picks);
    var r := Placed(v, picks);
    forall i | 0 <= i < |v| ensures exists j :: 0 <= j < |v| && other[j] >= r[i] {
      if forall j | 0 <= j < |v| :: other[j] < r[i] {
        forall j | 0 <= j < |v| ensures other[j] <= r[j] {
          if j in picks {
            assert r[i] <= r[j] + 1;
          }
        }
        SumDominates(r, other);
        assert false;
      }
    }
  }

  lemma {:induction false} SomeoneIsFree(v: seq<nat>) returns (i: nat)
    requires Sum(v) > 0
    ensures Picks(v, i)
  {
    i := 0;
    var k := 0;
    while k < |v|
      invariant 0 <= k <= |v| && (v == [] || i < |v|)
      invariant forall j | 0 <= j < k :: v[j] <= v[i]
    {
      if v[k] > v[i] {
        i := k;
      }
      k := k + 1;
    }
    if v == [] || v[i] == 0 {
      AllZero(v);
    }
  }

  lemma {:induction false} AllZero(v: seq<nat>)
    requires forall j | 0 <= j < |v| :: v[j] == 0
    ensures Sum(v) == 0
  {
    if v != [] {
      AllZero(v[1..]);
    }
  }

  lemma {:induction false} GreedyRun(v: seq<nat>, k: nat) returns (picks: seq<nat>)
    requires k <= Sum(v)
    ensures |picks| == k && Greedy(v, picks)
  {
    if k == 0 {
      picks := [];
    } else {
      var front := GreedyRun(v, k - 1);
      Balanced(v, front);
      var i := SomeoneIsFree(Placed(v, front));
      picks := front + [i];
      assert picks[..|picks| - 1] == front;
    }
  }

  /** All of k creates find room if and only if k does not exceed the free slots. */
  lemma RoomForExactly(v: seq<nat>, k: nat)
    ensures k <= Sum(v) <==> exists picks :: |picks| == k && Greedy(v, picks)
  {
    if k <= Sum(v) {
      var picks := GreedyRun(v, k);
    }
    forall picks | Greedy(v, picks) ensures |picks| <= Sum(v) {
      Balanced(v, picks);
    }
  }

  // --- the gateway's creates are greedy ---

  /** order lists the live hosts, each once. */
  ghost predicate ListsLive(f: Fleet, now: int, ttl: int, order: seq<HostId>) {
    && (forall i | 0 <= i < |order| :: order[i] in f.hosts && Alive(f.hosts[order[i]], now, ttl))
    && (forall h | h in f.hosts && Alive(f.hosts[h], now, ttl) :: h in order)
    && (forall i, j | 0 <= i < j < |order| :: order[i] != order[j])
  }

  ghost function Frees(f: Fleet, order: seq<HostId>): (v: seq<nat>)
    requires forall i | 0 <= i < |order| :: order[i] in f.hosts
    ensures |v| == |order| && forall i | 0 <= i < |order| :: v[i] == Free(f.hosts[order[i]])
  {
    seq(|order|, i requires 0 <= i < |order| => Free(f.hosts[order[i]]))
  }

  datatype Creation = Creation(hostId: HostId, id: Id)

  /** Creates one after the other, each on a host that PickHost may return, with no heartbeat in between. */
  ghost predicate CreateRun(f: Fleet, now: int, ttl: int, cs: seq<Creation>)
    decreases |cs|
  {
    cs == [] || (CreateRun(f, now, ttl, cs[..|cs| - 1]) && IsBest(Created(f, cs[..|cs| - 1]), now, ttl, cs[|cs| - 1].hostId))
  }

  function Created(f: Fleet, cs: seq<Creation>): Fleet
    decreases |cs|
  {
    if cs == [] then f else Recorded(Created(f, cs[..|cs| - 1]), cs[|cs| - 1].hostId, cs[|cs| - 1].id)
  }

  ghost predicate SameHosts(order: seq<HostId>, cs: seq<Creation>, picks: seq<nat>) {
    |picks| == |cs| && forall i | 0 <= i < |cs| :: picks[i] < |order| && order[picks[i]] == cs[i].hostId
  }

  /** A run of creates is a greedy placement of the free slots. */
  lemma {:induction false} CreatesAreGreedy(f: Fleet, now: int, ttl: int, order: seq<HostId>, cs: seq<Creation>)
    returns (picks: seq<nat>)
    requires ListsLive(f, now, ttl, order) && CreateRun(f, now, ttl, cs)
    ensures ListsLive(Created(f, cs), now, ttl, order)
    ensures SameHosts(order, cs, picks) && Greedy(Frees(f, order), picks)
    ensures Frees(Created(f, cs), order) == Placed(Frees(f, order), picks)
    decreases |cs|
  {
    picks := [];
    hide ListsLive, IsBest, Recorded, Charged;
    if cs != [] {
      var front, last := cs[..|cs| - 1], cs[|cs| - 1];
      var before := CreatesAreGreedy(f, now, ttl, order, front);
      var g := Created(f, front);
      var i := OneMore(g, now, ttl, order, last);
      picks := before + [i];
      assert picks[..|picks| - 1] == before;
    }
  }

  lemma OneMore(g: Fleet, now: int, ttl: int, order: seq<HostId>, c: Creation) returns (i: nat)
    requires ListsLive(g, now, ttl, order) && IsBest(g, now, ttl, c.hostId)
    ensures ListsLive(Recorded(g, c.hostId, c.id), now, ttl, order)
    ensures i < |order| && order[i] == c.hostId && Picks(Frees(g, order), i)
    ensures Frees(Recorded(g, c.hostId, c.id), order) == Charged(Frees(g, order), i)
  {
    i :| 0 <= i < |order| && order[i] == c.hostId;
  }

  /** After any number of creates without a heartbeat, a host that received one is at most one slot short of the
      freest host. */
  lemma PlacementIsBalanced(f: Fleet, now: int, ttl: int, order: seq<HostId>, cs: seq<Creation>, c: Creation, h: HostId)
    requires ListsLive(f, now, ttl, order) && CreateRun(f, now, ttl, cs) && c in cs && h in order
    ensures var g := Created(f, cs);
            c.hostId in g.hosts && h in g.hosts && Free(g.hosts[h]) <= Free(g.hosts[c.hostId]) + 1
  {
    var v := Frees(f, order);
    var picks := CreatesAreGreedy(f, now, ttl, order, cs);
    var g := Created(f, cs);
    Balanced(v, picks);
    var k :| 0 <= k < |cs| && cs[k] == c;
    var j :| 0 <= j < |order| && order[j] == h;
    assert picks[k] in picks;
    hide CreateRun, Created, Greedy, Placed;
    assert Frees(g, order)[j] <= Frees(g, order)[picks[k]] + 1;
  }

  /** However the same number of sandboxes had been spread over the live hosts, some host would be at least as free as
      the freest host is after the creates. */
  lemma PlacementIsOptimal(f: Fleet, now: int, ttl: int, order: seq<HostId>, cs: seq<Creation>, other: seq<nat>, h: HostId)
    requires ListsLive(f, now, ttl, order) && CreateRun(f, now, ttl, cs) && h in order
    requires |other| == |order| && Sum(other) + |cs| == Sum(Frees(f, order))
    requires forall i | 0 <= i < |order| :: other[i] <= Frees(f, order)[i]
    ensures h in Created(f, cs).hosts && exists j :: 0 <= j < |order| && other[j] >= Free(Created(f, cs).hosts[h])
  {
    hide CreateRun, Created, Greedy, Placed, Sum;
    var v := Frees(f, order);
    var picks := CreatesAreGreedy(f, now, ttl, order, cs);
    NoSpreadIsFlatter(v, picks, other);
    var i :| 0 <= i < |order| && order[i] == h;
    assert Frees(Created(f, cs), order)[i] == Free(Created(f, cs).hosts[h]);
    var j :| 0 <= j < |v| && other[j] >= Placed(v, picks)[i];
  }

  /** The creates that find a host are exactly as many as there are free slots. */
  lemma PlacementUsesAllSlots(f: Fleet, now: int, ttl: int, order: seq<HostId>, cs: seq<Creation>)
    requires ListsLive(f, now, ttl, order) && CreateRun(f, now, ttl, cs)
    ensures |cs| <= Sum(Frees(f, order))
    ensures (exists h :: IsBest(Created(f, cs), now, ttl, h)) <==> |cs| < Sum(Frees(f, order))
  {
    var picks := CreatesAreGreedy(f, now, ttl, order, cs);
    Balanced(Frees(f, order), picks);
    var g := Created(f, cs);
    hide CreateRun, Created, Greedy, Placed;
    SomeBest(g, now, ttl, order);
  }

  lemma SomeBest(g: Fleet, now: int, ttl: int, order: seq<HostId>)
    requires ListsLive(g, now, ttl, order)
    ensures (exists h :: IsBest(g, now, ttl, h)) <==> Sum(Frees(g, order)) > 0
  {
    if Sum(Frees(g, order)) > 0 {
      var i := SomeoneIsFree(Frees(g, order));
      BestOfListed(g, now, ttl, order, i);
    } else {
      forall i | 0 <= i < |order| ensures Free(g.hosts[order[i]]) == 0 {
        ZeroEntries(Frees(g, order), i);
      }
    }
  }

  lemma BestOfListed(g: Fleet, now: int, ttl: int, order: seq<HostId>, i: nat)
    requires ListsLive(g, now, ttl, order) && Picks(Frees(g, order), i)
    ensures IsBest(g, now, ttl, order[i])
  {
    forall h | h in g.hosts && Alive(g.hosts[h], now, ttl) ensures Free(g.hosts[h]) <= Free(g.hosts[order[i]]) {
      var j :| 0 <= j < |order| && order[j] == h;
      assert Frees(g, order)[j] <= Frees(g, order)[i];
    }
  }

  lemma {:induction false} ZeroEntries(v: seq<nat>, i: nat)
    requires Sum(v) == 0 && i < |v|
    ensures v[i] == 0
  {
    if i > 0 {
      ZeroEntries(v[1..], i - 1);
    }
  }
}
