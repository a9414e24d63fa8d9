/** How long the client waits before another attempt, in 64-bit arithmetic. */
module Backoff {
  import opened Errors
  import opened Wrappers

  /** Delays are in nanoseconds. */
  datatype Policy = Policy(
    maxRetries: int,
    baseDelay: Duration,
    maxDelay: Duration,
    retryAfterCap: Duration)

  const DEFAULTS := Policy(3, 500_000_000, 30_000_000_000, 300_000_000_000)

  function Pow2(n: nat): (r: nat)
    ensures r >= 1
  {
    if n == 0 then 1 else 2 * Pow2(n - 1)
  }

  /** Two's complement truncation to 64 bits. */
  function Wrap(x: int): (w: Duration)
    ensures -MAX_INT64 - 1 <= x <= MAX_INT64 ==> w == x
    ensures x == MAX_INT64 + 1 ==> w == -MAX_INT64 - 1
  {
    (x + (MAX_INT64 + 1)) % (2 * (MAX_INT64 + 1)) - (MAX_INT64 + 1)
  }

  /** The left shift of a 64-bit value. */
  function Shift(d: Duration, n: nat): Duration {
    Wrap(d * Pow2(n))
  }

  function Min(a: int, b: int): int {
    if a < b then a else b
  }

  function Max(a: int, b: int): int {
    if a < b then b else a
  }

  /** A random value below the bound: each of them comes out for some value of random. */
  function Draw(random: nat, bound: nat): (r: nat)
    requires bound > 0
    ensures r < bound
    ensures random < bound ==> r == random
  {
    if random < bound then random else 0
  }

  function OrDefault(d: Duration, otherwise: Duration): Duration {
    if d <= 0 then otherwise else d
  }

  function Base(p: Policy): (d: Duration)
    ensures d > 0
  {
    OrDefault(p.baseDelay, DEFAULTS.baseDelay)
  }

  function MaxDelay(p: Policy): (d: Duration)
    ensures d > 0
  {
    OrDefault(p.maxDelay, DEFAULTS.maxDelay)
  }

  function HintCap(p: Policy): (d: Duration)
    ensures d > 0
  {
    OrDefault(p.retryAfterCap, DEFAULTS.retryAfterCap)
  }

  /** base * 2^n with the exponent capped, before any truncation. */
  function Exponential(p: Policy, attempt: nat): (d: int)
    ensures d > 0
  {
    Base(p) * Pow2(Min(attempt, 20))
  }

  function Ceiling(p: Policy, attempt: nat): (c: Duration)
    ensures 0 < c <= MaxDelay(p)
  {
    var shifted := Shift(Base(p), Min(attempt, 20));
    if 0 < shifted <= MaxDelay(p) then shifted else MaxDelay(p)
  }

  /**
   The delay for one attempt given the random draw, or nothing where the draw panics because the
   ceiling plus one is no longer positive.
   */
  function DelayFor(p: Policy, attempt: nat, hint: Duration, random: nat): (delay: Option<Duration>)
    ensures delay.Some? <==> Ceiling(p, attempt) < MAX_INT64
  {
    var ceiling := Ceiling(p, attempt);
    if ceiling == MAX_INT64 then None
    else
      var sample := Draw(random, ceiling + 1);
      Some(if hint > sample then Min(hint, HintCap(p)) else sample)
  }

  method Delay(p: Policy, attempt: nat, retryAfter: Duration, random: nat) returns (result: Option<Duration>)
    ensures result == DelayFor(p, attempt, retryAfter, random)
  {
    var base := p.baseDelay;
    if base <= 0 {
      base := 500_000_000;
    }
    var maxDelay := p.maxDelay;
    if maxDelay <= 0 {
      maxDelay := 30_000_000_000;
    }
    var retryAfterCap := p.retryAfterCap;
    if retryAfterCap <= 0 {
      retryAfterCap := 300_000_000_000;
    }
    assert base == Base(p) && maxDelay == MaxDelay(p) && retryAfterCap == HintCap(p);

    var shift := attempt;
    if shift > 20 {
      shift := 20;
    }

    var ceiling: Duration := Shift(base, shift);
    if ceiling > maxDelay || ceiling <= 0 {
      ceiling := maxDelay;
    }
    assert ceiling == Ceiling(p, attempt);

    var bound: Duration := Wrap(ceiling + 1);
    if bound <= 0 {
      return None;
    }
    var delay: Duration := Draw(random, bound);
    if delay > maxDelay {
      delay := maxDelay;
    }

    if retryAfter > 0 && retryAfter > delay {
      delay := retryAfter;
      if delay > retryAfterCap {
        delay := retryAfterCap;
      }
    }
    return Some(delay);
  }

  // ------------------------------------------------------------------
  // The ceiling
  // ------------------------------------------------------------------

  /**
   The ceiling is min(base * 2^n, max) exactly when the product fits 64 bits, or truncating it leaves
   a value the guard replaces.
   */
  lemma CeilingIff(p: Policy, attempt: nat)
    ensures Ceiling(p, attempt) == Min(Exponential(p, attempt), MaxDelay(p)) <==>
            || Exponential(p, attempt) <= MAX_INT64
            || Wrap(Exponential(p, attempt)) <= 0
            || MaxDelay(p) <= Wrap(Exponential(p, attempt))
  {
    if Exponential(p, attempt) <= MAX_INT64 {
      assert Wrap(Exponential(p, attempt)) == Exponential(p, attempt);
    }
  }

  lemma {:induction false} Pow2Monotone(m: nat, n: nat)
    requires m <= n
    ensures Pow2(m) <= Pow2(n)
    decreases n
  {
    if m < n {
      Pow2Monotone(m, n - 1);
    }
  }

  /** No attempt's product overflows exactly when the one at the capped exponent does not. */
  lemma NeverOverflowsIff(p: Policy)
    ensures (forall n: nat :: Exponential(p, n) <= MAX_INT64) <==> Base(p) <= MAX_INT64 / 0x10_0000
  {
    Pow2Of20();
    if Base(p) <= MAX_INT64 / 0x10_0000 {
      forall n: nat ensures Exponential(p, n) <= MAX_INT64 {
        Pow2Monotone(Min(n, 20), 20);
        Scale(Base(p), Pow2(Min(n, 20)), Pow2(20));
      }
    } else {
      assert Exponential(p, 20) == Base(p) * 0x10_0000;
    }
  }

  lemma Scale(x: nat, a: nat, b: nat)
    requires a <= b
    ensures x * a <= x * b
  {
  }

  lemma Pow2Of20()
    ensures Pow2(20) == 0x10_0000
  {
    assert Pow2(10) == 1024;
    assert Pow2(15) == 1024 * 32;
  }

  /**
   For a base of about five hours the product wraps to a small positive value: attempt 20 then waits
   about a millisecond at most, though the configured maximum is half a minute.
   */
  lemma HugeBaseWraps()
    ensures var p := DEFAULTS.(baseDelay := 0x1000_0000_0001);
            Ceiling(p, 20) == 0x10_0000 && Ceiling(p, 20) < MaxDelay(p) < Exponential(p, 20)
  {
    Pow2Of20();
    assert Wrap(0x1000_0000_0001 * 0x10_0000) == 0x10_0000;
  }

  /** Wrapped or not, the ceiling never exceeds base * 2^n. */
  lemma CeilingBelowExponential(p: Policy, attempt: nat)
    ensures Ceiling(p, attempt) <= Exponential(p, attempt) <= Base(p) * Pow2(attempt)
  {
    Pow2Monotone(Min(attempt, 20), attempt);
    Scale(Base(p), Pow2(Min(attempt, 20)), Pow2(attempt));
  }

  // ------------------------------------------------------------------
  // The delay
  // ------------------------------------------------------------------

  /** A delay honours the hint up to its cap and never exceeds the larger of the two caps. */
  lemma DelayBounds(p: Policy, attempt: nat, hint: Duration, random: nat)
    requires Ceiling(p, attempt) < MAX_INT64
    ensures var delay := DelayFor(p, attempt, hint, random).value;
            && 0 <= delay <= Max(MaxDelay(p), HintCap(p))
            && Min(hint, HintCap(p)) <= delay
            && (hint <= 0 ==> delay <= Ceiling(p, attempt))
  {
  }

  /** Without a hint every delay up to the ceiling can come out, and no other. */
  lemma FullJitter(p: Policy, attempt: nat, hint: Duration, delay: Duration)
    requires Ceiling(p, attempt) < MAX_INT64 && hint <= 0
    ensures (exists random: nat :: DelayFor(p, attempt, hint, random) == Some(delay)) <==>
            0 <= delay <= Ceiling(p, attempt)
  {
    if 0 <= delay <= Ceiling(p, attempt) {
      assert DelayFor(p, attempt, hint, delay) == Some(delay);
    }
  }

  lemma HintShortensThisDraw(p: Policy, attempt: nat, hint: Duration, random: nat)
    requires Ceiling(p, attempt) < MAX_INT64
    ensures var sample := DelayFor(p, attempt, 0, random).value;
            DelayFor(p, attempt, hint, random).value < sample <==> HintCap(p) < sample < hint
  {
  }

  /**
   A hint can shorten the wait exactly when its cap leaves room below both the ceiling and the hint: some
   draw then lies above the cap and below the hint.
   */
  lemma HintCanShortenIff(p: Policy, attempt: nat, hint: Duration)
    requires Ceiling(p, attempt) < MAX_INT64
    ensures (exists random: nat ::
               DelayFor(p, attempt, hint, random).value < DelayFor(p, attempt, 0, random).value) <==>
            HintCap(p) < Ceiling(p, attempt) && HintCap(p) + 1 < hint
  {
    if HintCap(p) < Ceiling(p, attempt) && HintCap(p) + 1 < hint {
      var random := HintCap(p) + 1;
      HintShortensThisDraw(p, attempt, hint, random);
      assert DelayFor(p, attempt, hint, random).value < DelayFor(p, attempt, 0, random).value;
    } else {
      forall random: nat
        ensures DelayFor(p, attempt, hint, random).value >= DelayFor(p, attempt, 0, random).value
      {
        HintShortensThisDraw(p, attempt, hint, random);
      }
    }
  }

  /** With a cap of one second, a hint of a minute turns a wait of a second and a half into one second. */
  lemma MinuteHintShortens()
    ensures var p := DEFAULTS.(retryAfterCap := 1_000_000_000);
            && DelayFor(p, 2, 0, 1_500_000_000) == Some(1_500_000_000)
            && DelayFor(p, 2, 60_000_000_000, 1_500_000_000) == Some(1_000_000_000)
  {
    var p := DEFAULTS.(retryAfterCap := 1_000_000_000);
    assert Pow2(2) == 4;
    assert Ceiling(p, 2) == 2_000_000_000;
  }

  /** The draw panics only when the maximum delay is the largest duration there is. */
  lemma PanicsIff(p: Policy, attempt: nat, hint: Duration, random: nat)
    ensures DelayFor(p, attempt, hint, random) == None <==>
            && MaxDelay(p) == MAX_INT64
            && (Wrap(Exponential(p, attempt)) <= 0 || Wrap(Exponential(p, attempt)) == MAX_INT64)
  {
  }
}
