/** The timed exponential rate limiter. */
module Limiter {
  import opened Items

  datatype Failure = Failure(attempts: nat, last: Time)

  /** Delays in nanoseconds; `odd` is what the platform makes of converting 2^63,
  which no int64 holds, from float64. */
  datatype Config = Config(base: nat, max: nat, odd: int)

  type Failures = map<Key, Failure>

  function Pow2(n: nat): (r: nat)
    ensures r >= 1
  {
    if n == 0 then 1 else 2 * Pow2(n - 1)
  }

  const MAX_INT64_AS_FLOAT: nat := 0x8000_0000_0000_0000
  const EXACT_IN_FLOAT64: nat := 0x20_0000_0000_0000

  /** The gap between neighbouring float64 values at `x`. */
  function Ulp(x: nat): (u: nat)
    ensures u >= 1
  {
    if x < EXACT_IN_FLOAT64 then 1 else 2 * Ulp(x / 2)
  }

  /** Conversion of an integer to float64: to nearest, ties to even. */
  function NearestFloat(x: nat): nat {
    var u := Ulp(x);
    var q, r := x / u, x % u;
    if 2 * r < u || (2 * r == u && q % 2 == 0) then q * u else (q + 1) * u
  }

  /** The delay after `exp` recorded attempts. The product of a float64 and a
  power of two is exact, or infinite, which is also above the bound. */
  function Backoff(c: Config, exp: nat): int {
    var backoff := NearestFloat(c.base) * Pow2(exp);
    if backoff > MAX_INT64_AS_FLOAT then c.max
    else
      var calculated := if backoff < MAX_INT64_AS_FLOAT then backoff as int else c.odd;
      if calculated > c.max then c.max else calculated
  }

  function Attempts(f: Failures, k: Key): nat {
    if k in f then f[k].attempts else 0
  }

  /** More than twice the longest delay has passed since the last attempt. */
  predicate Stale(f: Failures, c: Config, k: Key, now: Time) {
    k in f && now - f[k].last > 2 * c.max
  }

  /** `When`: the delay it answers and the table it leaves. */
  function Retried(f: Failures, c: Config, k: Key, now: Time): (int, Failures) {
    if k !in f then (c.base, f[k := Failure(1, now)])
    else if Stale(f, c, k, now) then (0, f)
    else (Backoff(c, f[k].attempts), f[k := Failure(f[k].attempts + 1, now)])
  }

  function Forgotten(f: Failures, c: Config, k: Key, now: Time): Failures {
    if Stale(f, c, k, now) then f - {k} else f
  }

  class TimedLimiter {
    var failures: Failures
    const config: Config

    constructor (config: Config)
      ensures failures == map[] && this.config == config
    {
      failures := map[];
      this.config := config;
    }

    method When(k: Key, now: Time) returns (delay: int)
      modifies this
      ensures (delay, failures) == Retried(old(failures), config, k, now)
    {
      if k !in failures {
        failures := failures[k := Failure(1, now)];
        return config.base;
      }
      var request := failures[k];
      if now - request.last > 2 * config.max {
        return 0;
      }
      failures := failures[k := Failure(request.attempts + 1, now)];
      var backoff := NearestFloat(config.base) * Pow2(request.attempts);
      if backoff > MAX_INT64_AS_FLOAT {
        return config.max;
      }
      var calculated: int := if backoff < MAX_INT64_AS_FLOAT then backoff else config.odd;
      if calculated > config.max {
        return config.max;
      }
      return calculated;
    }

    method NumRequeues(k: Key) returns (n: nat)
      ensures n == Attempts(failures, k)
    {
      n := if k in failures then failures[k].attempts else 0;
    }

    method Forget(k: Key, now: Time)
      modifies this
      ensures failures == Forgotten(old(failures), config, k, now)
    {
      if k in failures && now - failures[k].last > 2 * config.max {
        failures := failures - {k};
      }
    }
  }

  // ----- the arithmetic ---------------------------------------------------

  predicate Reasonable(c: Config) {
    0 < c.base <= c.max < 0x4000_0000_0000_0000 && c.base <= EXACT_IN_FLOAT64
  }

  lemma {:induction false} ExactWhenSmall(x: nat)
    requires x <= EXACT_IN_FLOAT64
    ensures NearestFloat(x) == x
  {
    if x == EXACT_IN_FLOAT64 {
      assert Ulp(x / 2) == 1 && Ulp(x) == 2;
    }
  }

  /** The delay is the doubled base cut off at the maximum, exactly unless the
  product is 2^63: that one value passes the overflow test, which compares with
  `>` against a constant that float64 rounds up, and is then at the mercy of the
  platform's conversion. */
  lemma {:induction false} BackoffIsCappedDoubling(c: Config, n: nat)
    requires Reasonable(c)
    ensures Backoff(c, n) == Min(c.base * Pow2(n), c.max) <==>
              c.base * Pow2(n) != MAX_INT64_AS_FLOAT || c.odd >= c.max
  {
    ExactWhenSmall(c.base);
  }

  /** Where the conversion yields the least integer, the delay there is negative. */
  lemma {:induction false} ExactOverflowIsNegative(c: Config, n: nat)
    requires Reasonable(c) && c.base * Pow2(n) == MAX_INT64_AS_FLOAT && c.odd + MAX_INT64_AS_FLOAT == 0
    ensures Backoff(c, n) < 0
  {
    ExactWhenSmall(c.base);
  }

  lemma {:induction false} PowersMultiply(a: nat, b: nat)
    ensures Pow2(a + b) == Pow2(a) * Pow2(b)
  {
    if a == 0 {
    } else {
      PowersMultiply(a - 1, b);
      assert Pow2(a + b) == 2 * Pow2(a - 1 + b);
      assert 2 * (Pow2(a - 1) * Pow2(b)) == (2 * Pow2(a - 1)) * Pow2(b);
    }
  }

  lemma {:induction false} PowersGrow(a: nat, b: nat)
    requires a <= b
    ensures Pow2(a) <= Pow2(b)
  {
    if a < b {
      PowersGrow(a, b - 1);
    }
  }

  lemma {:induction false} Pow2Of63()
    ensures Pow2(63) == MAX_INT64_AS_FLOAT
  {
    assert Pow2(7) == 128;
    PowersMultiply(7, 7);
    PowersMultiply(14, 14);
    PowersMultiply(28, 28);
    PowersMultiply(56, 7);
  }

  /** Only a base that is itself a power of two can hit the excluded value. */
  lemma {:induction false} OnlyPowersOfTwoHit(base: nat, n: nat)
    requires base * Pow2(n) == MAX_INT64_AS_FLOAT
    ensures n <= 63 && base == Pow2(63 - n)
  {
    Pow2Of63();
    assert Pow2(64) == 2 * Pow2(63);
    assert base * Pow2(n) >= Pow2(n);
    PowersGrow(if n > 63 then 64 else n, n);
    PowersMultiply(63 - n, n);
    SameFactor(base, Pow2(63 - n), Pow2(n));
  }

  lemma {:induction false} SameFactor(a: nat, b: nat, c: nat)
    requires c > 0 && a * c == b * c
    ensures a == b
  {
    assert (b - a) * c == b * c - a * c;
  }

  lemma {:induction false} MulMono(a: nat, b: nat, c: nat)
    requires b <= c
    ensures a * b <= a * c
  {
  }

  /** Away from that value delays never decrease and never exceed the maximum. */
  lemma {:induction false} BackoffGrowsToMax(c: Config, m: nat, n: nat)
    requires Reasonable(c) && m <= n
    requires c.base * Pow2(m) != MAX_INT64_AS_FLOAT && c.base * Pow2(n) != MAX_INT64_AS_FLOAT
    ensures 0 < Backoff(c, m) <= Backoff(c, n) <= c.max
  {
    BackoffIsCappedDoubling(c, m);
    BackoffIsCappedDoubling(c, n);
    PowersGrow(m, n);
    MulMono(c.base, Pow2(m), Pow2(n));
    MulMono(c.base, 1, Pow2(m));
  }

  // ----- successive retries -----------------------------------------------

  /** The table after retries of one key at the given times. */
  function After(f: Failures, c: Config, k: Key, times: seq<Time>): Failures {
    if times == [] then f
    else Retried(After(f, c, k, times[..|times| - 1]), c, k, times[|times| - 1]).1
  }

  /** No two successive retries are more than twice the maximum delay apart. */
  ghost predicate Prompt(c: Config, times: seq<Time>) {
    forall i :: 0 <= i < |times| - 1 ==> times[i + 1] - times[i] <= 2 * c.max
  }

  lemma {:induction false} PromptRetriesCount(c: Config, f: Failures, k: Key, times: seq<Time>)
    requires k !in f && Prompt(c, times)
    ensures Attempts(After(f, c, k, times), k) == |times|
    ensures times != [] ==> k in After(f, c, k, times) && After(f, c, k, times)[k].last == times[|times| - 1]
  {
    if times == [] {
    } else {
      var before := times[..|times| - 1];
      assert forall i :: 0 <= i < |before| ==> before[i] == times[i];
      PromptRetriesCount(c, f, k, before);
      assert before != [] ==> times[|before|] - times[|before| - 1] <= 2 * c.max;
    }
  }

  /** The retry that follows `n` prompt ones is told to wait base * 2^n, up to the maximum. */
  lemma {:induction false} NthRetryWaitsDoubled(c: Config, f: Failures, k: Key, times: seq<Time>, now: Time)
    requires Reasonable(c) && k !in f && Prompt(c, times + [now])
    requires c.base * Pow2(|times|) != MAX_INT64_AS_FLOAT
    ensures Retried(After(f, c, k, times), c, k, now).0 == Min(c.base * Pow2(|times|), c.max)
  {
    var all := times + [now];
    assert forall i :: 0 <= i < |times| ==> all[i] == times[i];
    PromptRetriesCount(c, f, k, times);
    BackoffIsCappedDoubling(c, |times|);
    if times != [] {
      assert all[|times|] - all[|times| - 1] <= 2 * c.max;
    }
  }

  /** A retry that comes more than twice the maximum delay after the last recorded
  one may go at once and is not recorded; no other retry may, and every other one is. */
  lemma {:induction false} OnlyStaleRetriesAreFree(c: Config, f: Failures, k: Key, now: Time)
    requires Reasonable(c) && c.base * Pow2(Attempts(f, k)) != MAX_INT64_AS_FLOAT
    ensures
      var (delay, g) := Retried(f, c, k, now);
      && (delay == 0 <==> k in f && now - f[k].last > 2 * c.max)
      && (Attempts(g, k) == Attempts(f, k) <==> k in f && now - f[k].last > 2 * c.max)
      && (delay == 0 ==> g == f)
  {
    BackoffGrowsToMax(c, Attempts(f, k), Attempts(f, k));
  }

  // ----- rounding ---------------------------------------------------------

  /** The gap is the one of 53-bit significands. */
  lemma {:induction false} UlpFits(x: nat)
    ensures x < EXACT_IN_FLOAT64 * Ulp(x)
    ensures Ulp(x) > 1 ==> x >= EXACT_IN_FLOAT64 / 2 * Ulp(x)
  {
    if x < EXACT_IN_FLOAT64 {
    } else {
      UlpFits(x / 2);
      assert Ulp(x) == 2 * Ulp(x / 2);
      assert x == 2 * (x / 2) + x % 2;
      assert EXACT_IN_FLOAT64 * Ulp(x) == 2 * (EXACT_IN_FLOAT64 * Ulp(x / 2));
      assert EXACT_IN_FLOAT64 / 2 * Ulp(x) == 2 * (EXACT_IN_FLOAT64 / 2 * Ulp(x / 2));
    }
  }

  /** The conversion yields a multiple of the gap, no other is nearer, and of two equally near it takes the even one. */
  lemma {:induction false} NearestIsNear(x: nat) returns (q: nat)
    ensures NearestFloat(x) == q * Ulp(x)
    ensures 2 * (NearestFloat(x) - x) <= Ulp(x) && 2 * (x - NearestFloat(x)) <= Ulp(x)
    ensures 2 * (NearestFloat(x) - x) == Ulp(x) || 2 * (x - NearestFloat(x)) == Ulp(x) ==> q % 2 == 0
  {
    hide Ulp;
    var u := Ulp(x);
    var r := x % u;
    q := x / u;
    var down, up := q * u, (q + 1) * u;
    assert x == down + r;
    NextMultiple(q, u);
    q := if 2 * r < u || (2 * r == u && q % 2 == 0) then q else q + 1;
  }

  lemma {:induction false} NextMultiple(q: nat, u: nat)
    ensures (q + 1) * u == q * u + u
  {
  }
}
