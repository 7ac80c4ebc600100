/** How often a wait loop that polls until a deadline can read. */
module Polling {

  function Ceiling(x: real): (n: int)
    ensures (n as real) - 1.0 < x <= n as real
  {
    -((-x).Floor)
  }

  /** One reading at once, and one after each interval that starts before the deadline. */
  function MostReadings(timeout: real, interval: real): int
    requires interval > 0.0
  {
    if timeout <= 0.0 then 1 else Ceiling(timeout / interval) + 1
  }

  /** The intervals before the last reading fall short of the timeout, and one more reaches it. */
  lemma MostReadingsIs(timeout: real, interval: real)
    requires interval > 0.0 && timeout > 0.0
    ensures var n := MostReadings(timeout, interval);
            (n - 2) as real * interval < timeout <= (n - 1) as real * interval
  {
    var x, n := timeout / interval, MostReadings(timeout, interval);
    var less, more := (n - 2) as real, (n - 1) as real;
    assert x * interval == timeout;
    assert less < x <= more;
    Longer(less, x, interval);
    if x < more {
      Longer(x, more, interval);
    } else {
      assert x == more;
    }
  }

  lemma Longer(a: real, b: real, interval: real)
    requires a < b && interval > 0.0
    ensures a * interval < b * interval
  {
  }

  /** A loop that has slept `n` intervals and is still before the deadline may read once more. */
  lemma OneMoreReading(n: nat, timeout: real, interval: real, elapsed: real)
    requires interval > 0.0 && (n as real) * interval <= elapsed < timeout
    ensures n + 2 <= MostReadings(timeout, interval)
  {
    assert (n as real) * interval < timeout / interval * interval;
    assert (n as real) < timeout / interval;
  }

  lemma OneMoreInterval(n: nat, interval: real)
    ensures ((n + 1) as real) * interval == (n as real) * interval + interval
  {
  }

  /** After `n` readings, each followed by a sleep, there is time for another. */
  predicate OnTime(n: nat, timeout: real, interval: real, elapsed: real)
    requires interval > 0.0
  {
    (n as real) * interval <= elapsed && n + 1 <= MostReadings(timeout, interval)
  }

  lemma StartsOnTime(timeout: real, interval: real)
    requires interval > 0.0
    ensures OnTime(0, timeout, interval, 0.0)
  {
    if timeout > 0.0 {
      assert timeout / interval > 0.0;
    }
  }

  lemma NextOnTime(n: nat, timeout: real, interval: real, before: real, read: real, slept: real)
    requires interval > 0.0 && OnTime(n, timeout, interval, before)
    requires before <= read < timeout && slept >= read + interval
    ensures OnTime(n + 1, timeout, interval, slept)
  {
    OneMoreReading(n, timeout, interval, read);
    OneMoreInterval(n, interval);
  }

  // ----- Time taken by calls

  /** How long the first `n` calls take together. */
  function Elapsed(delays: nat -> real, n: nat): real {
    if n == 0 then 0.0 else Elapsed(delays, n - 1) + delays(n - 1)
  }

  ghost predicate NeverBack(delays: nat -> real) {
    forall n :: delays(n) >= 0.0
  }

  /** So many calls together take this long. */
  ghost predicate Passes(delays: nat -> real, t: real) {
    exists n :: Elapsed(delays, n) >= t
  }

  /** Time moves on: calls that go on for ever take for ever. */
  ghost predicate MovesOn(delays: nat -> real) {
    forall t: real :: Passes(delays, t)
  }

  lemma {:induction false} ElapsedGrows(delays: nat -> real, m: nat, n: nat)
    requires NeverBack(delays) && m <= n
    ensures Elapsed(delays, m) <= Elapsed(delays, n)
  {
    if m < n { ElapsedGrows(delays, m, n - 1); }
  }

  /**
   A loop that polls until a deadline ends: with a positive interval because of its sleeps, and
   otherwise because its calls take time.
   */
  ghost predicate Polls(delays: nat -> real, interval: real) {
    interval > 0.0 || MovesOn(delays)
  }

  /** A loop whose sleeps do not end it makes fewer calls than this before its deadline. */
  ghost function LastCall(delays: nat -> real, interval: real, deadline: real): (n: nat)
    requires Polls(delays, interval)
    ensures interval <= 0.0 ==> Elapsed(delays, n) >= deadline
  {
    if interval > 0.0 then 0
    else
      assert Passes(delays, deadline);
      var n: nat :| Elapsed(delays, n) >= deadline;
      n
  }

  /** How much further a loop can go: readings, or calls. */
  ghost function Left(delays: nat -> real, timeout: real, interval: real, deadline: real, read: nat, calls: nat): int
    requires Polls(delays, interval)
  {
    if interval > 0.0 then MostReadings(timeout, interval) - read else LastCall(delays, interval, deadline) - calls
  }

  lemma CallsLeft(delays: nat -> real, interval: real, deadline: real, calls: nat, clock: real)
    requires NeverBack(delays) && Polls(delays, interval) && interval <= 0.0
    requires Elapsed(delays, calls) <= clock < deadline
    ensures calls < LastCall(delays, interval, deadline)
  {
    if LastCall(delays, interval, deadline) <= calls {
      ElapsedGrows(delays, LastCall(delays, interval, deadline), calls);
    }
  }
}
