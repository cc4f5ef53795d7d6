/**
 The two startup loops, which retry against a deadline: how many attempts they make. The
 clock is whatever it is, as long as it never goes back and a sleep lasts at least its
 interval.
 */
module Startup {
  function Ceiling(x: real): int {
    -((-x).Floor)
  }

  /** With positive timeout and interval. */
  function MaxAttempts(timeout: real, interval: real): int
    requires interval > 0.0
  {
    Ceiling(timeout / interval) + 1
  }

  /** What the loops keep: before attempt a + 1 there have been a sleeps, the last of which began before the deadline. */
  predicate OnSchedule(attempts: nat, elapsed: real, timeout: real, interval: real) {
    && attempts as real * interval <= elapsed
    && (attempts > 0 ==> (attempts - 1) as real * interval < timeout)
  }

  lemma SleptOnceMore(attempts: nat, before: real, elapsed: real, timeout: real, interval: real)
    requires 0.0 <= interval
    requires OnSchedule(attempts, before, timeout, interval) && before < timeout && before + interval <= elapsed
    ensures OnSchedule(attempts + 1, elapsed, timeout, interval)
  {
    assert (attempts + 1) as real * interval == attempts as real * interval + interval;
  }

  lemma AttemptsBounded(attempts: nat, elapsed: real, timeout: real, interval: real)
    requires 0.0 < interval && 0.0 < timeout && OnSchedule(attempts, elapsed, timeout, interval)
    ensures attempts + 1 <= MaxAttempts(timeout, interval)
  {
    var q := timeout / interval;
    assert q * interval == timeout;
    if attempts > 0 {
      var k := attempts - 1;
      assert k as real < q by {
        if q <= k as real {
          Monotone(q, k as real, interval);
        }
      }
      assert Ceiling(q) > k;
    } else {
      assert q > 0.0;
    }
  }

  lemma Monotone(a: real, b: real, c: real)
    requires a <= b && 0.0 < c
    ensures a * c <= b * c
  {
  }

  /** The monotonic clock. */
  class Clock {
    var now: real

    constructor ()
    {
      now := *;
    }

    /** Time passes while nobody looks. */
    method Monotonic() returns (reading: real)
      modifies this
      ensures reading == now >= old(now)
    {
      var later: real := *;
      now := if later >= now then later else now;
      reading := now;
    }

    /** A sleep lasts at least as long as it is told to. */
    method Sleep(interval: real)
      modifies this
      ensures now >= old(now) && now >= old(now) + interval
    {
      var later: real := *;
      var least := if interval > 0.0 then now + interval else now;
      now := if later >= least then later else least;
    }
  }
}
