/** Retry delays: exponential backoff with ten per cent of jitter, under a cap. */
module Backoff {
  import opened Common

  /** One draw of the random number generator: at least 0, less than 1. */
  type Jitter = r: real | 0.0 <= r < 1.0

  /** The delay before jitter and cap are applied. */
  function Exponential(base: real, n: nat): real
    requires n >= 1
  {
    base * Pow2(n - 1) as real
  }

  /** The delay before retry number n, in milliseconds. */
  function RetryDelay(base: real, cap: real, n: nat, draw: Jitter): real
    requires n >= 1
  {
    Capped(Exponential(base, n), cap, draw)
  }

  /** A delay lengthened by its jitter, then cut to the cap. */
  function Capped(delay: real, cap: real, draw: Jitter): real {
    var jitter := draw * 0.1 * delay;
    MinReal(delay + jitter, cap)
  }

  /** The time that successive retries, one for each draw, wait in total. */
  function TotalDelay(base: real, cap: real, draws: seq<Jitter>): real {
    if draws == [] then 0.0
    else TotalDelay(base, cap, draws[..|draws| - 1]) + RetryDelay(base, cap, |draws|, draws[|draws| - 1])
  }

  lemma ExponentialNonNegative(base: real, n: nat)
    requires base >= 0.0 && n >= 1
    ensures Exponential(base, n) >= 0.0
  {
  }

  lemma Scaled(a: real, delay: real)
    requires 0.0 <= a <= 0.1 && delay >= 0.0
    ensures 0.0 <= a * delay <= 0.1 * delay
  {
    assert (0.1 - a) * delay >= 0.0;
  }

  lemma CappedRange(delay: real, cap: real, draw: Jitter)
    requires delay >= 0.0
    ensures MinReal(delay, cap) <= Capped(delay, cap, draw) <= cap
    ensures Capped(delay, cap, draw) <= 1.1 * delay
  {
    var a := draw * 0.1;
    Scaled(a, delay);
    assert draw * 0.1 * delay == a * delay;
  }

  /** Jitter only lengthens a delay, by at most a tenth, and the cap is never exceeded. */
  lemma DelayRange(base: real, cap: real, n: nat, draw: Jitter)
    requires base >= 0.0 && n >= 1
    ensures MinReal(Exponential(base, n), cap) <= RetryDelay(base, cap, n, draw) <= cap
    ensures RetryDelay(base, cap, n, draw) <= 1.1 * Exponential(base, n)
  {
    ExponentialNonNegative(base, n);
    CappedRange(Exponential(base, n), cap, draw);
  }

  lemma Lengthened(x: real, draw: real)
    ensures x * (1.0 + 0.1 * draw) == x + draw * 0.1 * x
  {
    var a := draw * 0.1;
    assert x * (1.0 + a) == x + a * x;
  }

  lemma CappedIs(delay: real, cap: real, draw: Jitter)
    ensures
      var jittered := delay * (1.0 + 0.1 * draw);
      Capped(delay, cap, draw) == if jittered <= cap then jittered else cap
  {
    Lengthened(delay, draw);
  }

  /** The delay before retry n in plain arithmetic, for any base: 2^(n-1) times the base, up to a tenth longer, capped. */
  lemma DelayIs(base: real, cap: real, n: nat, draw: Jitter)
    requires n >= 1
    ensures
      var jittered := base * Pow2(n - 1) as real * (1.0 + 0.1 * draw);
      RetryDelay(base, cap, n, draw) == if jittered <= cap then jittered else cap
  {
    CappedIs(base * Pow2(n - 1) as real, cap, draw);
    hide Capped;
  }

  lemma ExponentialDoubles(base: real, n: nat, m: nat)
    requires base >= 0.0 && 1 <= n < m
    ensures Exponential(base, m) >= 2.0 * Exponential(base, n)
  {
    Pow2Monotone(n, m - 1);
    var k, l := Pow2(n - 1) as real, Pow2(m - 1) as real;
    assert l - 2.0 * k >= 0.0;
    assert base * (l - 2.0 * k) >= 0.0;
    assert base * (l - 2.0 * k) == base * l - 2.0 * (base * k);
  }

  /** A later retry never waits less than an earlier one, whatever the two draws. */
  lemma DelayNeverDecreases(base: real, cap: real, n: nat, m: nat, draw: Jitter, later: Jitter)
    requires base >= 0.0 && 1 <= n < m
    ensures RetryDelay(base, cap, n, draw) <= RetryDelay(base, cap, m, later)
  {
    var short, long := Exponential(base, n), Exponential(base, m);
    ExponentialNonNegative(base, n);
    ExponentialDoubles(base, n, m);
    CappedRange(short, cap, draw);
    CappedRange(long, cap, later);
  }

  lemma GeometricStep(base: real, p: real)
    ensures 1.1 * base * (p + (p - 1.0)) == 1.1 * base * (p - 1.0) + 1.1 * (base * p)
  {
    var b := 1.1 * base;
    assert b * (p + (p - 1.0)) == b * p + b * (p - 1.0);
    assert b * p == 1.1 * (base * p);
  }

  lemma OneMoreCap(n: nat, cap: real)
    ensures (n + 1) as real * cap == n as real * cap + cap
  {
    var m := n as real;
    assert (m + 1.0) * cap == m * cap + cap;
  }

  /** The total of r exponential delays, each with the largest jitter. */
  function JitteredSum(base: real, r: nat): real {
    1.1 * base * (Pow2(r) - 1) as real
  }

  function CapSum(cap: real, r: nat): real {
    r as real * cap
  }

  lemma TotalStep(base: real, cap: real, r: nat)
    requires r >= 1
    ensures JitteredSum(base, r) == JitteredSum(base, r - 1) + 1.1 * Exponential(base, r)
    ensures CapSum(cap, r) == CapSum(cap, r - 1) + cap
  {
    var p := Pow2(r - 1) as real;
    assert (Pow2(r) - 1) as real == p + (p - 1.0);
    GeometricStep(base, p);
    OneMoreCap(r - 1, cap);
  }

  lemma {:induction false} TotalWithinSums(base: real, cap: real, draws: seq<Jitter>)
    requires base >= 0.0
    ensures TotalDelay(base, cap, draws) <= JitteredSum(base, |draws|)
    ensures TotalDelay(base, cap, draws) <= CapSum(cap, |draws|)
  {
    if draws != [] {
      hide JitteredSum, CapSum, Exponential, RetryDelay;
      var r := |draws|;
      TotalWithinSums(base, cap, draws[..r - 1]);
      DelayRange(base, cap, r, draws[r - 1]);
      TotalStep(base, cap, r);
    }
  }

  /** All retries together wait no longer than the jittered geometric sum, nor than the cap each time. */
  lemma {:induction false} TotalDelayBound(base: real, cap: real, draws: seq<Jitter>)
    requires base >= 0.0
    ensures TotalDelay(base, cap, draws) <= 1.1 * base * (Pow2(|draws|) - 1) as real
    ensures TotalDelay(base, cap, draws) <= |draws| as real * cap
  {
    TotalWithinSums(base, cap, draws);
  }
}
