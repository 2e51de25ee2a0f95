/** The delay after which a pending or failed virtual node is reconciled again. */
module Backoff {

  const SECOND := 1_000_000_000
  const MIN_REQUEUE := 2 * SECOND
  const MAX_REQUEUE := 60 * SECOND
  const STEP := 30 * SECOND

  function Pow2(n: nat): (r: int)
    ensures r >= 1
  {
    if n == 0 then 1 else 2 * Pow2(n - 1)
  }

  lemma {:induction false} Pow2Grows(m: nat, n: nat)
    requires m <= n
    ensures Pow2(m) <= Pow2(n)
    decreases n
  {
    if m < n { Pow2Grows(m, n - 1); }
  }

  /** Doubling for every full 30 seconds of age, capped at 60 seconds; a clock that runs behind counts as age zero. */
  function Delay(age: int): int {
    var steps := if age < 0 then 0 else age / STEP;
    var raw := MIN_REQUEUE * Pow2(steps);
    if raw > MAX_REQUEUE then MAX_REQUEUE else raw
  }

  /** The loop computes the closed form and doubles at most five times, whatever the age. */
  method RequeueBackoff(age: int) returns (delay: int, ghost doublings: nat)
    ensures delay == Delay(age) && doublings <= 5
  {
    delay := MIN_REQUEUE;
    doublings := 0;
    var threshold := STEP;
    while threshold <= age && delay < MAX_REQUEUE
      invariant threshold == (doublings + 1) * STEP
      invariant delay == MIN_REQUEUE * Pow2(doublings)
      invariant doublings <= 5 && (doublings == 0 || doublings * STEP <= age)
      decreases 5 - doublings
    {
      Unfold(doublings);
      delay := delay * 2;
      threshold := threshold + STEP;
      doublings := doublings + 1;
    }
    var steps := if age < 0 then 0 else age / STEP;
    assert doublings <= steps;
    Pow2Grows(doublings, steps);
    if delay < MAX_REQUEUE {
      assert doublings == steps;
    }
    if delay > MAX_REQUEUE {
      delay := MAX_REQUEUE;
    }
  }

  lemma Unfold(n: nat)
    requires n <= 5
    ensures MIN_REQUEUE * Pow2(n) < MAX_REQUEUE <==> n < 5
    ensures MIN_REQUEUE * Pow2(n + 1) == MIN_REQUEUE * Pow2(n) * 2
  {
    assert Pow2(1) == 2 && Pow2(2) == 4 && Pow2(3) == 8;
    assert Pow2(4) == 2 * Pow2(3) && Pow2(5) == 2 * Pow2(4);
  }

  /** Older nodes never wait less, and every wait is between 2 and 60 seconds. */
  lemma DelayIsMonotone(a: int, b: int)
    requires a <= b
    ensures MIN_REQUEUE <= Delay(a) <= Delay(b) <= MAX_REQUEUE
  {
    var i := if a < 0 then 0 else a / STEP;
    var j := if b < 0 then 0 else b / STEP;
    assert i <= j;
    Pow2Grows(i, j);
  }
}
