/** The bounded pools a host hands out, and the first-free scans over them (internal/registry/registry.go). */
module Pools {
  import opened Wrappers
  import opened Decimals
  import opened Addresses

  datatype Pools = Pools(tapPrefix: string, tapMax: int, guestIPMin: string, guestIPMax: string, portMin: int, portMax: int)

  function TapPool(p: Pools): seq<string> {
    seq(if p.tapMax < 0 then 0 else p.tapMax, i requires i >= 0 => TapName(p.tapPrefix, i))
  }

  /** The addresses from min to max, both included; empty when min exceeds max. */
  function IPRange(min: nat, max: nat): seq<string> {
    seq(if max < min then 0 else max - min + 1, i => PrintIP(min + i))
  }

  /** None when either bound is not an IPv4 address. */
  function IPPool(p: Pools): Option<seq<string>> {
    if ParseIP(p.guestIPMin).Some? && ParseIP(p.guestIPMax).Some? then
      Some(IPRange(ParseIP(p.guestIPMin).value, ParseIP(p.guestIPMax).value))
    else None
  }

  function PortPool(p: Pools): seq<int> {
    seq(if p.portMax < p.portMin then 0 else p.portMax - p.portMin + 1, i => p.portMin + i)
  }

  predicate Distinct<T(==)>(xs: seq<T>) {
    forall i, j | 0 <= i < j < |xs| :: xs[i] != xs[j]
  }

  /** The first name, in pool order, that is not in use. */
  function FirstFree<T(==)>(names: seq<T>, used: set<T>): (r: Option<T>)
    ensures r.Some? ==> r.value in names && r.value !in used
  {
    if names == [] then None
    else if names[0] !in used then Some(names[0])
    else FirstFree(names[1..], used)
  }

  /** A scan that found the first k names taken stops at name k if that is free, and fails at the end of the pool. */
  lemma {:induction false} FirstFreeAt<T>(names: seq<T>, used: set<T>, k: nat)
    requires k <= |names| && forall j | 0 <= j < k :: names[j] in used
    ensures k == |names| ==> FirstFree(names, used) == None
    ensures k < |names| && names[k] !in used ==> FirstFree(names, used) == Some(names[k])
  {
    if k > 0 {
      FirstFreeAt(names[1..], used, k - 1);
    }
  }

  /** Conversely the result of the scan is the least free name, and it fails only when no name is free. */
  lemma {:induction false} FirstFreeLeast<T>(names: seq<T>, used: set<T>) returns (k: nat)
    ensures k <= |names| && forall j | 0 <= j < k :: names[j] in used
    ensures FirstFree(names, used) == None <==> k == |names|
    ensures k < |names| ==> names[k] !in used && FirstFree(names, used) == Some(names[k])
  {
    if names == [] || names[0] !in used {
      k := 0;
    } else {
      var k' := FirstFreeLeast(names[1..], used);
      k := k' + 1;
    }
  }

  function Elems<T>(xs: seq<T>): set<T> {
    set x | x in xs
  }

  lemma {:induction false} DistinctCount<T>(xs: seq<T>)
    requires Distinct(xs)
    ensures |Elems(xs)| == |xs|
  {
    if xs != [] {
      DistinctCount(xs[1..]);
      assert Elems(xs) == {xs[0]} + Elems(xs[1..]);
    }
  }

  lemma {:induction false} SubsetCount<T>(a: set<T>, b: set<T>)
    requires a <= b
    ensures |a| <= |b|
    ensures |a| == |b| ==> a == b
  {
    if a != {} {
      var x :| x in a;
      SubsetCount(a - {x}, b - {x});
    }
  }

  /** The pigeonhole principle of a pool: while only its own names are taken, one is free exactly when fewer
      names are taken than the pool holds. */
  lemma FreeIffRoom<T>(names: seq<T>, used: set<T>)
    requires Distinct(names) && used <= Elems(names)
    ensures FirstFree(names, used).Some? <==> |used| < |names|
  {
    DistinctCount(names);
    SubsetCount(used, Elems(names));
    var k := FirstFreeLeast(names, used);
    if k == |names| {
      assert used == Elems(names);
    } else {
      assert names[k] in Elems(names);
    }
  }

  lemma TapPoolDistinct(p: Pools)
    ensures Distinct(TapPool(p))
  {
    forall i, j | 0 <= i < j < |TapPool(p)| ensures TapPool(p)[i] != TapPool(p)[j] {
      TapNameInjective(p.tapPrefix, i, j);
    }
  }

  lemma IPRangeDistinct(min: nat, max: nat)
    requires max < TWO32
    ensures Distinct(IPRange(min, max))
  {
    hide PrintIP;
    forall i, j | 0 <= i < j < |IPRange(min, max)| ensures IPRange(min, max)[i] != IPRange(min, max)[j] {
      PrintIPInjective(min + i, min + j);
    }
  }

  lemma IPPoolDistinct(p: Pools)
    ensures IPPool(p).Some? ==> Distinct(IPPool(p).value)
  {
    hide ParseIP, PrintIP;
    PrintParse(p.guestIPMax);
    if IPPool(p).Some? {
      IPRangeDistinct(ParseIP(p.guestIPMin).value, ParseIP(p.guestIPMax).value);
    }
  }

  /** Which names the pools hold, and in which order. */
  lemma PoolNames(p: Pools)
    ensures |TapPool(p)| == (if p.tapMax < 0 then 0 else p.tapMax)
    ensures forall k | 0 <= k < |TapPool(p)| :: TapPool(p)[k] == p.tapPrefix + Print(k)
    ensures forall x :: x in PortPool(p) <==> p.portMin <= x <= p.portMax
    ensures forall j, k | 0 <= j < k < |PortPool(p)| :: PortPool(p)[j] < PortPool(p)[k]
  {
    forall x | p.portMin <= x <= p.portMax ensures x in PortPool(p) {
      assert PortPool(p)[x - p.portMin] == x;
    }
  }

  /** The addresses from bound to bound, read and printed. */
  lemma AddressNames(p: Pools)
    ensures IPPool(p).Some? <==> ParseIP(p.guestIPMin).Some? && ParseIP(p.guestIPMax).Some?
    ensures IPPool(p).Some? ==>
              var min, max := ParseIP(p.guestIPMin).value, ParseIP(p.guestIPMax).value;
              && |IPPool(p).value| == (if max < min then 0 else max - min + 1)
              && forall k | 0 <= k < |IPPool(p).value| :: IPPool(p).value[k] == PrintIP(min + k)
  {
    hide ParseIP, PrintIP;
  }

  /** The scan over host ports finds the least port between the bounds that is not in use. */
  lemma LeastPort(p: Pools, used: set<int>)
    ensures var r := FirstFree(PortPool(p), used);
            && (r.None? <==> forall x | p.portMin <= x <= p.portMax :: x in used)
            && (r.Some? ==> p.portMin <= r.value <= p.portMax && r.value !in used
                            && forall x | p.portMin <= x < r.value :: x in used)
  {
    var k := FirstFreeLeast(PortPool(p), used);
    forall x | p.portMin <= x <= p.portMax && x - p.portMin < k ensures x in used {
      assert PortPool(p)[x - p.portMin] == x;
    }
    if k < |PortPool(p)| {
      assert PortPool(p)[k] == p.portMin + k;
    }
  }

  // --- the address scan with its 32-bit counter ---

  /** The counter after k increments; it wraps. */
  function ScanAt(min: nat, k: nat): nat {
    (min + k) % TWO32
  }

  ghost predicate ScanStopsAt(min: nat, max: nat, used: set<string>, k: nat) {
    && (ScanAt(min, k) > max || PrintIP(ScanAt(min, k)) !in used)
    && forall j: nat | j < k :: ScanAt(min, j) <= max && PrintIP(ScanAt(min, j)) in used
  }

  /** What the scan returns when its loop ends after k increments. */
  function ScanResult(min: nat, max: nat, k: nat): Option<string> {
    if ScanAt(min, k) > max then None else Some(PrintIP(ScanAt(min, k)))
  }

  ghost predicate FreeInRange(min: nat, max: nat, used: set<string>) {
    exists n: nat | min <= n <= max :: PrintIP(n) !in used
  }

  /** The scan ends with the first free address of the range, or reports exhaustion of a full range, if and only
      if the range does not end at the last 32-bit address or still has a free address. */
  lemma ScanExact(min: nat, max: nat, used: set<string>)
    requires min < TWO32 && max < TWO32
    ensures (exists k: nat :: ScanStopsAt(min, max, used, k) && ScanResult(min, max, k) == FirstFree(IPRange(min, max), used))
       <==> max < TWO32 - 1 || FreeInRange(min, max, used)
  {
    hide PrintIP;
    var names := IPRange(min, max);
    var k := FirstFreeLeast(names, used);
    forall j | 0 <= j < k ensures ScanAt(min, j) == min + j && PrintIP(ScanAt(min, j)) in used {
      assert names[j] == PrintIP(min + j);
    }
    if k < |names| {
      assert names[k] == PrintIP(min + k);
      assert ScanAt(min, k) == min + k;
      assert ScanStopsAt(min, max, used, k);
    } else if max < TWO32 - 1 {
      assert ScanAt(min, k) == min + k;
      assert ScanStopsAt(min, max, used, k);
    } else {
      forall n: nat | min <= n <= max ensures PrintIP(n) in used {
        assert names[n - min] == PrintIP(n);
      }
      assert forall k': nat :: ScanResult(min, max, k').Some?;
    }
  }

  /** With a full range that ends at 255.255.255.255 the scan never reports exhaustion: it returns an address
      below the range, or it does not end. */
  lemma ScanWraps(min: nat, used: set<string>, k: nat)
    requires min < TWO32 && !FreeInRange(min, TWO32 - 1, used) && ScanStopsAt(min, TWO32 - 1, used, k)
    ensures ScanResult(min, TWO32 - 1, k) == Some(PrintIP(ScanAt(min, k))) && ScanAt(min, k) < min
  {
    hide PrintIP;
    var n := ScanAt(min, k);
    assert PrintIP(n) !in used;
    assert !(min <= n <= TWO32 - 1);
  }

  // --- capacity ---

  function Min(a: int, b: int): int {
    if a < b then a else b
  }

  /** Slots over the parsed bounds, with the 32-bit subtraction of the two addresses. */
  function SlotsFor(taps: int, ports: int, minIP: Option<nat>, maxIP: Option<nat>): int {
    var n := Min(ports, taps);
    var n := if minIP.Some? && maxIP.Some? then Min((maxIP.value - minIP.value) % TWO32 + 1, n) else n;
    if n < 0 then 0 else n
  }

  /** Pools.Slots: the capacity a host advertises. */
  function Slots(p: Pools): int {
    SlotsFor(p.tapMax, p.portMax - p.portMin + 1, ParseIP(p.guestIPMin), ParseIP(p.guestIPMax))
  }

  predicate IPBoundsOrdered(p: Pools) {
    ParseIP(p.guestIPMin).Some? && ParseIP(p.guestIPMax).Some? && ParseIP(p.guestIPMin).value <= ParseIP(p.guestIPMax).value
  }

  /** The capacity over parsed bounds is the size of the smallest pool exactly when the address bounds are in
      order or another pool is empty anyway; with the bounds reversed the subtraction wraps and promises room
      although the address pool is empty. */
  lemma SlotsForExact(taps: int, ports: int, min: nat, max: nat)
    requires min < TWO32 && max < TWO32
    ensures SlotsFor(taps, ports, Some(min), Some(max))
         == Min(Min(if taps < 0 then 0 else taps, if ports < 0 then 0 else ports), |IPRange(min, max)|)
       <==> min <= max || taps <= 0 || ports <= 0
  {
    hide PrintIP;
    if max < min {
      assert (max - min) % TWO32 == TWO32 - (min - max);
    }
  }

  /** Address bounds that an operator has mixed up. */
  const REVERSED := Pools("tap", 5, "10.0.0.20", "10.0.0.10", 30000, 30004)

  lemma ReversedBounds()
    ensures ParseIP(REVERSED.guestIPMin) == Some(0x0A00_0014) && ParseIP(REVERSED.guestIPMax) == Some(0x0A00_000A)
  {
    assert Print(10) == "10" && Print(20) == "20" && Print(0) == "0";
    assert Byte(0x0A00_0014, 3) == 10 && Byte(0x0A00_0014, 2) == 0 && Byte(0x0A00_0014, 1) == 0 && Byte(0x0A00_0014, 0) == 20;
    assert Byte(0x0A00_000A, 3) == 10 && Byte(0x0A00_000A, 2) == 0 && Byte(0x0A00_000A, 1) == 0 && Byte(0x0A00_000A, 0) == 10;
    assert PrintIP(0x0A00_0014) == "10.0.0.20";
    assert PrintIP(0x0A00_000A) == "10.0.0.10";
    ParsePrint(0x0A00_0014);
    ParsePrint(0x0A00_000A);
  }

  /** They leave no address at all, and promise room for five. */
  lemma ReversedBoundsPromiseRoom()
    ensures Slots(REVERSED) == 5 && IPPool(REVERSED) == Some([])
  {
    hide ParseIP, PrintIP;
    ReversedBounds();
    assert IPRange(0x0A00_0014, 0x0A00_000A) == [];
  }

  /** With well-formed, ordered address bounds Slots is the size of the smallest pool. */
  lemma SlotsIsSmallestPool(p: Pools)
    ensures IPBoundsOrdered(p) ==> IPPool(p).Some?
    ensures IPBoundsOrdered(p) ==> Slots(p) == Min(Min(|TapPool(p)|, |PortPool(p)|), |IPPool(p).value|)
  {
    hide ParseIP, PrintIP;
    PrintParse(p.guestIPMax);
    if IPBoundsOrdered(p) {
      SlotsForExact(p.tapMax, p.portMax - p.portMin + 1, ParseIP(p.guestIPMin).value, ParseIP(p.guestIPMax).value);
    }
  }
}
