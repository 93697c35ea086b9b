/** `executors/retry.py`: exponential backoff on the attempt that just failed, with a cap. */
module RetryPolicy {
  import opened Collections

  /** `retry_backoff_max_sec` */
  const CAP: nat := 3600

  function Pow2(n: nat): (r: nat)
    ensures r > 0
  {
    if n == 0 then 1 else 2 * Pow2(n - 1)
  }

  /** `attempt` is the 1-based number of the attempt that just failed. */
  predicate ShouldRetry(attempt: int, maxRetries: int) {
    attempt <= maxRetries
  }

  function BackoffSeconds(attempt: int, base: int): (r: int)
    ensures 0 <= r <= 3600
  {
    if base <= 0 then 0
    else Min(base * Pow2(Max(0, attempt - 1)), CAP)
  }

  /** The delays of a chain whose first `n` attempts all failed, added up. */
  function TotalBackoff(n: nat, base: int): int {
    if n == 0 then 0 else TotalBackoff(n - 1, base) + BackoffSeconds(n, base)
  }

  /** From one failed attempt to the next the delay doubles until it meets the cap. */
  lemma BackoffDoubles(attempt: int, base: int)
    requires attempt >= 1
    ensures BackoffSeconds(attempt + 1, base) == Min(2 * BackoffSeconds(attempt, base), 3600)
    ensures BackoffSeconds(1, base) == Min(Max(base, 0), 3600)
  {
    if base > 0 {
      var p := Pow2(attempt - 1);
      assert Pow2(attempt) == 2 * p;
      assert base * (2 * p) == 2 * (base * p);
      assert Pow2(0) == 1 && base * 1 == base;
    }
  }

  lemma {:induction false} BackoffMonotone(a: int, b: int, base: int)
    requires a <= b
    ensures BackoffSeconds(a, base) <= BackoffSeconds(b, base)
    decreases b - a
  {
    if a < b {
      if b >= 2 { BackoffDoubles(b - 1, base); }
      BackoffMonotone(a, b - 1, base);
    }
  }

  /** One more term of the geometric sum. */
  lemma Doubling(base: int, p: int)
    ensures base * (p - 1) + base * p == base * (2 * p - 1)
  {}

  /** The whole chain waits at most base * (2^n - 1), and at most n caps. */
  lemma {:induction false} TotalBackoffBounded(n: nat, base: int)
    requires base >= 0
    ensures 0 <= TotalBackoff(n, base) <= base * (Pow2(n) - 1)
    ensures TotalBackoff(n, base) <= n * 3600
  {
    if n > 0 {
      TotalBackoffBounded(n - 1, base);
      var p := Pow2(n - 1);
      assert BackoffSeconds(n, base) <= base * p;
      Doubling(base, p);
    }
  }

  lemma Halve(base: nat, p: nat, bound: nat)
    requires base * (2 * p) <= bound
    ensures base * p <= bound
  {
    assert base * (2 * p) == base * p + base * p;
  }

  lemma {:induction false} Uncapped(n: nat, base: nat, p: nat)
    requires n > 0 && p == Pow2(n - 1) && base * p <= CAP
    ensures BackoffSeconds(n, base) == base * p
  {}

  /** With no delay capped the first bound is met exactly. */
  lemma {:induction false} TotalBackoffExact(n: nat, base: nat)
    requires n > 0 ==> base * Pow2(n - 1) <= 3600
    ensures TotalBackoff(n, base) == base * (Pow2(n) - 1)
  {
    if n > 0 {
      var p := Pow2(n - 1);
      if n > 1 { Halve(base, Pow2(n - 2), CAP); }
      TotalBackoffExact(n - 1, base);
      Uncapped(n, base, p);
      Doubling(base, p);
    }
  }
}
