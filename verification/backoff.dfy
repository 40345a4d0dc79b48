/** `exp_backoff` and `exp_backoff_full_jitter`, identical in greenmw/mw.py and mw.py. */
module Backoff {
  import opened Base

  const DefaultCap: int := 36
  const DefaultBase: int := 5
  /** exp_backoff_full_jitter subtracts this literal, whatever `base` it passed on. */
  const JitterOffset: int := 5

  function Pow2(n: nat): (r: nat)
    ensures r >= 1
  {
    if n == 0 then 1 else 2 * Pow2(n - 1)
  }

  lemma {:induction false} Pow2Monotone(m: nat, n: nat)
    requires m <= n
    ensures Pow2(m) <= Pow2(n)
    decreases n
  {
    if m < n {
      Pow2Monotone(m, n - 1);
    }
  }

  /** exp_backoff(attempt, cap, base). The source compares `attempt` with
      math.log(cap / base, 2); since log2 is increasing and 2^attempt > 0, that is
      the comparison of 2^attempt with the ratio cap / base, stated here over the
      reals. `cap / base` raises ZeroDivisionError when base is 0, and math.log
      raises ValueError when the ratio is not positive. */
  function ExpBackoff(attempt: nat, cap: int, base: int): (r: Result<int>)
    ensures r == Err(ZeroDivisionError) <==> base == 0
    ensures r == Err(ValueError) <==> base != 0 && cap as real / base as real <= 0.0
    ensures r.Ok? ==> r.value == cap || r.value == base * Pow2(attempt)
  {
    if base == 0 then Err(ZeroDivisionError)
    else
      var ratio := cap as real / base as real;
      if ratio <= 0.0 then Err(ValueError)
      else if Pow2(attempt) as real <= ratio then Ok(base * Pow2(attempt))
      else Ok(cap)
  }

  /** The equivalence the source's comment claims: for positive cap and base the
      log comparison computes min(cap, base * 2^attempt). */
  lemma ExpBackoffIsMin(attempt: nat, cap: int, base: int)
    requires cap > 0 && base > 0
    ensures ExpBackoff(attempt, cap, base) == Ok(Min(cap, base * Pow2(attempt)))
  {
    RatioCompare(Pow2(attempt), cap, base);
  }

  /** For a positive divisor, comparing with a ratio is comparing products. */
  lemma RatioCompare(p: int, c: int, b: int)
    requires b > 0
    ensures (p as real <= c as real / b as real) <==> b * p <= c
  {
    var br := b as real;
    var r := c as real / br;
    assert r * br == c as real;
    assert (b * p) as real == br * p as real;
    if p as real <= r {
      MulNonneg(br, r - p as real);
      assert br * (r - p as real) == br * r - br * p as real;
    } else {
      MulPos(br, p as real - r);
      assert br * (p as real - r) == br * p as real - br * r;
    }
  }

  lemma MulNonneg(x: real, y: real)
    requires x >= 0.0 && y >= 0.0
    ensures x * y >= 0.0
  {
  }

  lemma MulPos(x: real, y: real)
    requires x > 0.0 && y > 0.0
    ensures x * y > 0.0
  {
  }

  /** Scaling by a random.random() draw keeps a value between 0 and itself. */
  lemma Scale(hi: real, u: Fraction)
    ensures hi >= 0.0 ==> 0.0 <= hi * u <= hi
    ensures hi > 0.0 ==> hi * u < hi
    ensures hi <= 0.0 ==> hi <= hi * u <= 0.0
  {
    if hi >= 0.0 {
      MulNonneg(hi, u);
      MulNonneg(hi, 1.0 - u);
    }
    if hi > 0.0 {
      MulPos(hi, 1.0 - u);
    }
    if hi <= 0.0 {
      MulNonneg(-hi, u);
      MulNonneg(-hi, 1.0 - u);
    }
  }

  /** A positive cap and base never raise, and the result stays within (0, cap]. */
  lemma ExpBackoffBounds(attempt: nat, cap: int, base: int)
    requires cap > 0 && base > 0
    ensures ExpBackoff(attempt, cap, base).Ok?
    ensures 0 < ExpBackoff(attempt, cap, base).value <= cap
  {
    ExpBackoffIsMin(attempt, cap, base);
  }

  /** random.uniform(0, hi), which CPython computes as 0 + (hi - 0) * random():
      the draw lies between 0 and hi whichever side of 0 hi is on. */
  function Uniform(hi: real, u: Fraction): (d: real)
    ensures hi >= 0.0 ==> 0.0 <= d <= hi
    ensures hi > 0.0 ==> d < hi
    ensures hi <= 0.0 ==> hi <= d <= 0.0
  {
    Scale(hi, u);
    hi * u
  }

  /** exp_backoff_full_jitter(attempt, cap, base): uniform(0, exp_backoff(...) - 5). */
  function FullJitter(attempt: nat, cap: int, base: int, u: Fraction): (r: Result<real>)
    ensures r.Err? <==> ExpBackoff(attempt, cap, base).Err?
    ensures r.Err? ==> r.error == ExpBackoff(attempt, cap, base).error
    ensures r.Ok? ==>
      var hi := (ExpBackoff(attempt, cap, base).value - JitterOffset) as real;
      && (0.0 <= hi ==> 0.0 <= r.value <= hi)
      && (0.0 < hi ==> r.value < hi)
      && (hi < 0.0 ==> hi <= r.value <= 0.0)
  {
    var raw := ExpBackoff(attempt, cap, base);
    if raw.Err? then Err(raw.error)
    else Ok(Uniform((raw.value - JitterOffset) as real, u))
  }

  /** The upper end of the jitter interval the pool draws from: exp_backoff(n) - 5
      with the default cap 36 and base 5. */
  function JitterBound(n: nat): int
  {
    ExpBackoffBounds(n, DefaultCap, DefaultBase);
    ExpBackoff(n, DefaultCap, DefaultBase).value - JitterOffset
  }

  /** The delay the pool's `backoff` (exp_backoff_full_jitter with its defaults)
      returns for a proxy with `failedAttempts` prior failures. */
  function Delay(failedAttempts: nat, u: Fraction): (d: real)
    ensures 0.0 <= d <= JitterBound(failedAttempts) as real
    ensures JitterBound(failedAttempts) > 0 ==> d < JitterBound(failedAttempts) as real
  {
    ExpBackoffBounds(failedAttempts, DefaultCap, DefaultBase);
    ExpBackoffIsMin(failedAttempts, DefaultCap, DefaultBase);
    FullJitter(failedAttempts, DefaultCap, DefaultBase, u).value
  }

  /** With the defaults the bound runs 0, 5, 15 and then stays at 31. */
  lemma JitterBoundValues(n: nat)
    ensures n == 0 ==> JitterBound(n) == 0
    ensures n == 1 ==> JitterBound(n) == 5
    ensures n == 2 ==> JitterBound(n) == 15
    ensures n >= 3 ==> JitterBound(n) == 31
  {
    ExpBackoffIsMin(n, DefaultCap, DefaultBase);
    if n >= 3 {
      Pow2Monotone(3, n);
      assert Pow2(3) == 8;
    } else if n == 2 {
      assert Pow2(2) == 4;
    } else if n == 1 {
      assert Pow2(1) == 2;
    }
  }

  /** The bound is 0 for a first failure, never exceeds 31 and never shrinks as
      failures accumulate. */
  lemma JitterBoundMonotone(m: nat, n: nat)
    requires m <= n
    ensures JitterBound(0) == 0
    ensures 0 <= JitterBound(m) <= JitterBound(n) <= 31
  {
    JitterBoundValues(0);
    JitterBoundValues(m);
    JitterBoundValues(n);
  }

  /** Every delay the pool draws lies in [0, 31], below the cap of 36. */
  lemma DelayRange(n: nat, u: Fraction)
    ensures 0.0 <= Delay(n, u) <= 31.0
    ensures n == 0 ==> Delay(n, u) == 0.0
  {
    JitterBoundValues(n);
  }
}
