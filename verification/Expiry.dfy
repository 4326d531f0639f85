/** Deadlines of sandboxes (internal/server/ttl.go): when the reaper lists a sandbox, compared with its true deadline.
    Times are nanoseconds since the epoch; the registry keeps whole seconds. */
module Expiry {
  import opened Wrappers
  import opened Tables

  const SECOND: int := 1_000_000_000
  const TICK: int := 10 * SECOND

  const TWO63: int := 0x8000_0000_0000_0000
  const TWO64: int := 0x1_0000_0000_0000_0000

  /** Go's int64 arithmetic wraps around. */
  function Wrap64(n: int): int {
    (n + TWO63) % TWO64 - TWO63
  }

  function Unix(t: int): int {
    t / SECOND
  }

  /** time.Now().Add(time.Duration(timeoutSec) * time.Second), in whole seconds; no timeout, no deadline. */
  function Deadline(now: int, timeoutSec: int): Option<int> {
    if timeoutSec > 0 then Some(Unix(now + Wrap64(timeoutSec * SECOND))) else None
  }

  /** The moment that the caller asked for. */
  function TrueDeadline(now: int, timeoutSec: int): int {
    now + timeoutSec * SECOND
  }

  /** What the reaper's query at time t selects. */
  predicate Listed(row: Sandbox, t: int) {
    row.status.Running? && row.expiresAt.Some? && row.expiresAt.value < Unix(t)
  }

  /** The longest timeout whose nanoseconds fit 64 bits: about 292 years. */
  const MAX_TIMEOUT: int := 9_223_372_036

  lemma TimeoutFits(timeoutSec: int)
    requires 0 < timeoutSec < TWO63
    ensures Wrap64(timeoutSec * SECOND) == timeoutSec * SECOND <==> timeoutSec <= MAX_TIMEOUT
  {
  }

  /** Never early: a sandbox that is listed has passed its deadline, unless its timeout does not fit 64 bits of
      nanoseconds. A timeout that does not fit wraps around, and its sandbox is listed ahead of its deadline. */
  lemma NeverEarly(now: int, timeoutSec: int, row: Sandbox)
    requires row.status.Running? && 0 < timeoutSec < TWO63 && row.expiresAt == Deadline(now, timeoutSec)
    ensures (forall t | Listed(row, t) :: t > TrueDeadline(now, timeoutSec)) <==> timeoutSec <= MAX_TIMEOUT
  {
    TimeoutFits(timeoutSec);
    if timeoutSec <= MAX_TIMEOUT {
      forall t | Listed(row, t) ensures t > TrueDeadline(now, timeoutSec) {
        FloorStep(TrueDeadline(now, timeoutSec), t);
      }
    } else {
      WrapLoses(timeoutSec * SECOND);
      FloorStep(now + Wrap64(timeoutSec * SECOND), TrueDeadline(now, timeoutSec));
      assert Listed(row, TrueDeadline(now, timeoutSec));
    }
  }

  lemma WrapLoses(n: int)
    requires n >= TWO63
    ensures Wrap64(n) <= n - TWO64
  {
    assert (n + TWO63) % TWO64 == n + TWO63 - (n + TWO63) / TWO64 * TWO64;
  }

  /** For one: a timeout of one second more than fits makes a sandbox that the reaper takes at once. */
  lemma LongTimeoutWraps(now: int, row: Sandbox)
    requires row.status.Running? && row.expiresAt == Deadline(now, MAX_TIMEOUT + 1)
    ensures Listed(row, now) && now < TrueDeadline(now, MAX_TIMEOUT + 1)
  {
  }

  /** Never is a sandbox without a deadline listed, and one second past the deadline every query lists it. */
  lemma ListedFrom(now: int, timeoutSec: int, row: Sandbox, t: int)
    requires row.status.Running? && 0 <= timeoutSec <= MAX_TIMEOUT && row.expiresAt == Deadline(now, timeoutSec)
    ensures timeoutSec == 0 ==> !Listed(row, t)
    ensures timeoutSec > 0 && t >= TrueDeadline(now, timeoutSec) + SECOND ==> Listed(row, t)
  {
    if timeoutSec > 0 {
      TimeoutFits(timeoutSec);
      FloorStep(TrueDeadline(now, timeoutSec), t);
    }
  }

  /** What a timeout means to the reaper: 0 is never listed; otherwise no query lists the row up to the deadline, and
      every query lists it from one second past the deadline. */
  ghost predicate Timed(row: Sandbox, now: int, timeoutSec: int) {
    && (timeoutSec == 0 ==> forall t :: !Listed(row, t))
    && (0 < timeoutSec <= MAX_TIMEOUT ==>
          && (forall t | t <= now + timeoutSec * SECOND :: !Listed(row, t))
          && (forall t | t >= now + timeoutSec * SECOND + SECOND :: Listed(row, t)))
  }

  lemma DeadlineIsKept(row: Sandbox, now: int, timeoutSec: int)
    requires row.status.Running? && timeoutSec >= 0 && row.expiresAt == Deadline(now, timeoutSec)
    ensures Timed(row, now, timeoutSec)
  {
    if timeoutSec <= MAX_TIMEOUT {
      forall t ensures timeoutSec == 0 ==> !Listed(row, t)
        ensures timeoutSec > 0 && t >= now + timeoutSec * SECOND + SECOND ==> Listed(row, t)
        ensures timeoutSec > 0 && t <= now + timeoutSec * SECOND ==> !Listed(row, t)
      {
        ListedFrom(now, timeoutSec, row, t);
        if timeoutSec > 0 {
          NeverEarly(now, timeoutSec, row);
        }
      }
    }
  }

  lemma FloorStep(d: int, t: int)
    ensures t >= d + SECOND ==> Unix(d) < Unix(t)
    ensures Unix(d) < Unix(t) ==> t > d
  {
  }

  /** The reaper ticks every ten seconds from start on. A sandbox whose deadline stays as it is gets listed at some
      tick less than eleven seconds after its deadline, and at no tick up to the deadline. */
  lemma ReapedInTime(now: int, timeoutSec: int, row: Sandbox, start: int)
    requires row.status.Running? && 0 < timeoutSec <= MAX_TIMEOUT && row.expiresAt == Deadline(now, timeoutSec)
    requires start <= TrueDeadline(now, timeoutSec) + SECOND
    ensures exists k: nat :: Listed(row, start + k * TICK) && start + k * TICK < TrueDeadline(now, timeoutSec) + SECOND + TICK
    ensures forall k: nat | Listed(row, start + k * TICK) :: start + k * TICK > TrueDeadline(now, timeoutSec)
  {
    var d := TrueDeadline(now, timeoutSec) + SECOND;
    var k: nat := (d - start + TICK - 1) / TICK;
    assert d <= start + k * TICK < d + TICK;
    ListedFrom(now, timeoutSec, row, start + k * TICK);
    forall k: nat | Listed(row, start + k * TICK) ensures start + k * TICK > TrueDeadline(now, timeoutSec) {
      NeverEarly(now, timeoutSec, row);
    }
  }
}
