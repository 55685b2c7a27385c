/** The retry policy of the connection manager: how its three settings are read
    (with their defaults) and how long it waits after each failed attempt. */
module RetryPolicy {
  import opened Wrappers

  /** Defaults used when a setting is absent, unparsable or zero. */
  const DefaultMaxRetries: int := 10
  const DefaultBaseDelay: int := 5000
  const DefaultMaxDelay: int := 30000

  /** `maxRetries` bounds the attempts of one connect cycle; delays are in milliseconds. */
  datatype Policy = Policy(maxRetries: int, baseDelay: int, maxDelay: int)

  /** `parseInt(setting) || fallback`: `parsed` is the integer `parseInt` produced,
      or None when it produced NaN (the setting is missing or not a number). NaN and
      0 are falsy, so both give way to the fallback; every other value, negative
      ones included, is kept. */
  function EnvOrDefault(parsed: Option<int>, fallback: int): (v: int)
    ensures parsed.Some? && parsed.value != 0 ==> v == parsed.value
    ensures parsed.None? || parsed.value == 0 ==> v == fallback
    ensures fallback != 0 ==> v != 0
  {
    match parsed
    case Some(n) => if n != 0 then n else fallback
    case None => fallback
  }

  /** The policy a manager gets from its three settings. */
  function PolicyFromSettings(retries: Option<int>, base: Option<int>, max: Option<int>): (p: Policy)
    ensures p.maxRetries != 0 && p.baseDelay != 0 && p.maxDelay != 0
    ensures retries.None? && base.None? && max.None? ==> p == Policy(10, 5000, 30000)
  {
    Policy(EnvOrDefault(retries, DefaultMaxRetries),
           EnvOrDefault(base, DefaultBaseDelay),
           EnvOrDefault(max, DefaultMaxDelay))
  }

  /** 2 to the power n; `Math.pow(2, n)` is exact for the exponents that matter. */
  function Pow2(n: nat): (r: nat)
    ensures r >= 1
  {
    if n == 0 then 1 else 2 * Pow2(n - 1)
  }

  function Min(a: int, b: int): int
  {
    if a <= b then a else b
  }

  /** The wait after the `failures`-th failed attempt of a connect cycle:
      `min(baseDelay * 2^(failures - 1), maxDelay)`. */
  function RetryDelay(p: Policy, failures: nat): (d: int)
    requires failures >= 1
    ensures d <= p.maxDelay
  {
    Min(p.baseDelay * Pow2(failures - 1), p.maxDelay)
  }

  /** The waits after failures number `first`, `first + 1`, ..., `bound - 1`, in order. */
  function Schedule(p: Policy, first: nat, bound: int): (ds: seq<int>)
    requires first >= 1
    ensures |ds| == if first < bound then bound - first else 0
    decreases bound - first
  {
    if first >= bound then [] else [RetryDelay(p, first)] + Schedule(p, first + 1, bound)
  }

  /** The i-th wait of a schedule is the delay after failure `first + i`. */
  lemma {:induction false} ScheduleAt(p: Policy, first: nat, bound: int, i: nat)
    requires first >= 1 && first + i < bound
    ensures Schedule(p, first, bound)[i] == RetryDelay(p, first + i)
    decreases i
  {
    if i > 0 {
      ScheduleAt(p, first + 1, bound, i - 1);
    }
  }

  lemma {:induction false} Pow2Monotone(m: nat, n: nat)
    requires m <= n
    ensures Pow2(m) <= Pow2(n)
    decreases n - m
  {
    if m < n {
      Pow2Monotone(m, n - 1);
    }
  }

  lemma {:induction false} Pow2Exceeds(n: nat)
    ensures Pow2(n) > n
  {
    if n > 0 {
      Pow2Exceeds(n - 1);
    }
  }

  /** With a non-negative base delay the waits never shrink from one failure to the next. */
  lemma DelayMonotone(p: Policy, j: nat, k: nat)
    requires p.baseDelay >= 0
    requires 1 <= j <= k
    ensures RetryDelay(p, j) <= RetryDelay(p, k)
  {
    Pow2Monotone(j - 1, k - 1);
    assert p.baseDelay * Pow2(j - 1) <= p.baseDelay * Pow2(k - 1) by {
      MulMonotone(p.baseDelay, Pow2(j - 1), Pow2(k - 1));
    }
  }

  lemma MulMonotone(a: nat, x: nat, y: nat)
    requires x <= y
    ensures a * x <= a * y
  {
  }

  /** With a non-negative ceiling, the wait doubles from one failure to the next
      until it reaches the ceiling. */
  lemma DelayDoubles(p: Policy, k: nat)
    requires k >= 1
    requires p.maxDelay >= 0
    ensures RetryDelay(p, k + 1) == Min(2 * RetryDelay(p, k), p.maxDelay)
  {
    assert Pow2(k) == 2 * Pow2(k - 1);
    assert p.baseDelay * Pow2(k) == 2 * (p.baseDelay * Pow2(k - 1));
  }

  /** With a positive base delay the wait is pinned at the ceiling from failure
      `maxDelay + 1` on. */
  lemma DelayReachesCap(p: Policy, k: nat)
    requires p.baseDelay >= 1 && p.maxDelay >= 0
    requires k > p.maxDelay
    ensures RetryDelay(p, k) == p.maxDelay
  {
    var x := Pow2(k - 1);
    Pow2Exceeds(k - 1);
    assert x > p.maxDelay;
    MulMonotone(x, 1, p.baseDelay);
    assert x * 1 <= x * p.baseDelay;
    assert p.baseDelay * x >= x;
  }

  /** Once the uncapped wait `baseDelay * 2^(j-1)` reaches the ceiling at failure j,
      every later wait is the ceiling (with a non-negative base). */
  lemma DelayStaysAtCap(p: Policy, j: nat, k: nat)
    requires p.baseDelay >= 0
    requires 1 <= j <= k
    requires p.baseDelay * Pow2(j - 1) >= p.maxDelay
    ensures RetryDelay(p, k) == p.maxDelay
  {
    Pow2Monotone(j - 1, k - 1);
    MulMonotone(p.baseDelay, Pow2(j - 1), Pow2(k - 1));
  }

  /** With the default settings the waits after failures 1 .. 9 are 5, 10 and 20
      seconds, then the 30-second ceiling from the fourth failure on. */
  lemma DefaultSchedule()
    ensures Schedule(Policy(10, 5000, 30000), 1, 10)
         == [5000, 10000, 20000, 30000, 30000, 30000, 30000, 30000, 30000]
  {
    var p := Policy(10, 5000, 30000);
    assert Pow2(0) == 1 && Pow2(1) == 2 && Pow2(2) == 4 && Pow2(3) == 8;
    forall k | 4 <= k < 10
      ensures RetryDelay(p, k) == 30000
    {
      DelayStaysAtCap(p, 4, k);
    }
    var ds := Schedule(p, 1, 10);
    forall i | 0 <= i < 9
      ensures ds[i] == [5000, 10000, 20000, 30000, 30000, 30000, 30000, 30000, 30000][i]
    {
      ScheduleAt(p, 1, 10, i);
    }
  }

  /** `parseInt(x) || 5000` keeps a negative base delay, and then the waits shrink
      from one failure to the next: the non-negative base in DelayMonotone is
      needed. */
  lemma NegativeBaseShrinks()
    ensures RetryDelay(Policy(3, -100, 1000), 2) < RetryDelay(Policy(3, -100, 1000), 1)
    ensures EnvOrDefault(Some(-100), DefaultBaseDelay) == -100
  {
    assert Pow2(1) == 2;
  }
}
