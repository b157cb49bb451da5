/** Retry policies: when a failure is retried, and how long the retry waits. */
module Backoff {
  import opened Common
  import opened Reals

  datatype Strategy = Linear | Exponential | Fixed

  datatype Policy = Policy(
    maxAttempts: nat,
    baseDelay: real,
    strategy: Strategy,
    jitter: bool,
    jitterMax: real,
    retryExceptions: set<string>,
    skipExceptions: set<string>,
    rateLimitExceptions: set<string>,
    rateLimitMaxDelay: real)

  /** What the constructor accepts. */
  predicate ValidPolicy(p: Policy) {
    && 1 <= p.maxAttempts <= 10
    && 0.0 <= p.jitterMax <= 1.0
    && p.baseDelay >= 0.0
    && p.rateLimitMaxDelay > 0.0
  }

  function ShouldRetry(p: Policy, attempt: nat, exception: Option<string>): bool {
    if attempt >= p.maxAttempts then false
    else if exception.None? then true
    else if exception.value in p.skipExceptions then false
    else if exception.value in p.rateLimitExceptions then true
    else if p.retryExceptions != {} then exception.value in p.retryExceptions
    else true
  }

  predicate IsRateLimit(p: Policy, exception: Option<string>) {
    exception.Some? && exception.value in p.rateLimitExceptions
  }

  // ---------------------------------------------------------------------------
  // The delay
  // ---------------------------------------------------------------------------

  function Pow2(n: nat): (r: nat)
    ensures r >= 1
  {
    if n == 0 then 1 else 2 * Pow2(n - 1)
  }

  /** int(): towards zero. */
  function Truncate(x: real): int {
    if x >= 0.0 then x.Floor else -((-x).Floor)
  }

  /** random.uniform(low, high), as a function of a draw from the unit interval. */
  function Uniform(low: real, high: real, draw: real): real {
    low + Times(high - low, draw)
  }

  predicate IsDraw(draw: real) {
    0.0 <= draw <= 1.0
  }

  function RawDelay(p: Policy, attempt: nat, isRateLimit: bool): real
    requires attempt >= 1
  {
    if isRateLimit then Min(Times(p.baseDelay, Pow2(attempt - 1) as real), p.rateLimitMaxDelay)
    else
      match p.strategy
      case Linear => Times(p.baseDelay, attempt as real)
      case Exponential => Times(p.baseDelay, Pow2(attempt - 1) as real)
      case Fixed => p.baseDelay
  }

  function Jittered(p: Policy, delay: real, draw: real): real {
    if p.jitter && delay > 0.0
    then Max(1.0, delay + Uniform(-Times(delay, p.jitterMax), Times(delay, p.jitterMax), draw))
    else delay
  }

  /** Whole seconds to wait after `attempt` failed. */
  function Delay(p: Policy, attempt: nat, retryAfter: Option<real>, isRateLimit: bool, draw: real): int
    requires attempt >= 1
  {
    match retryAfter
    case Some(hint) => Truncate(Min(hint + Uniform(0.0, hint * 0.1, draw), p.rateLimitMaxDelay))
    case None =>
      var jittered := Jittered(p, RawDelay(p, attempt, isRateLimit), draw);
      Truncate(if isRateLimit then Min(jittered, p.rateLimitMaxDelay) else jittered)
  }

  // ---------------------------------------------------------------------------
  // Bounds
  // ---------------------------------------------------------------------------

  lemma UniformIsBetween(low: real, high: real, draw: real)
    requires low <= high && IsDraw(draw)
    ensures low <= Uniform(low, high, draw) <= high
  {
    hide Times;
    TimesGrows(high - low, draw, 1.0);
    TimesNonNegative(high - low, draw);
    TimesOne(high - low);
  }

  lemma TruncateIsFloor(x: real, y: real)
    requires 0.0 <= x <= y
    ensures 0 <= Truncate(x) <= Truncate(y)
    ensures Truncate(x) as real <= x < Truncate(x) as real + 1.0
  {
  }

  /** After a rate limit, hint or no hint, the wait is never longer than the cap. */
  lemma RateLimitNeverExceedsCap(p: Policy, attempt: nat, retryAfter: Option<real>, isRateLimit: bool, draw: real)
    requires ValidPolicy(p) && attempt >= 1 && IsDraw(draw)
    requires isRateLimit || retryAfter.Some?
    requires retryAfter.Some? ==> retryAfter.value >= 0.0
    ensures 0 <= Delay(p, attempt, retryAfter, isRateLimit, draw)
    ensures Delay(p, attempt, retryAfter, isRateLimit, draw) as real <= p.rateLimitMaxDelay
  {
    match retryAfter
    case Some(hint) =>
      UniformIsBetween(0.0, hint * 0.1, draw);
      TruncateIsFloor(Min(hint + Uniform(0.0, hint * 0.1, draw), p.rateLimitMaxDelay), p.rateLimitMaxDelay);
    case None =>
      TimesNonNegative(p.baseDelay, Pow2(attempt - 1) as real);
      var raw := RawDelay(p, attempt, true);
      TruncateIsFloor(Min(Jittered(p, raw, draw), p.rateLimitMaxDelay), p.rateLimitMaxDelay);
  }

  /** A provider's hint is a floor, up to the cap, and is never stretched past a tenth more. */
  lemma HintIsHonoured(p: Policy, attempt: nat, hint: real, isRateLimit: bool, draw: real)
    requires ValidPolicy(p) && attempt >= 1 && IsDraw(draw) && hint >= 0.0
    ensures Truncate(Min(hint, p.rateLimitMaxDelay)) <= Delay(p, attempt, Some(hint), isRateLimit, draw)
    ensures Delay(p, attempt, Some(hint), isRateLimit, draw) as real <= hint * 1.1
  {
    UniformIsBetween(0.0, hint * 0.1, draw);
    var waited := Min(hint + Uniform(0.0, hint * 0.1, draw), p.rateLimitMaxDelay);
    TruncateIsFloor(Min(hint, p.rateLimitMaxDelay), waited);
    TruncateIsFloor(waited, waited);
  }

  lemma JitterBounds(p: Policy, delay: real, draw: real)
    requires ValidPolicy(p) && IsDraw(draw) && delay >= 0.0
    ensures 0.0 <= Jittered(p, delay, draw) <= 1.0 + delay + Times(delay, p.jitterMax)
    ensures p.jitter && delay > 0.0 ==>
              var spread := Times(delay, p.jitterMax);
              Max(1.0, delay - spread) <= Jittered(p, delay, draw) <= Max(1.0, delay + spread)
  {
    hide Times;
    TimesNonNegative(delay, p.jitterMax);
    UniformIsBetween(-Times(delay, p.jitterMax), Times(delay, p.jitterMax), draw);
  }

  // ---------------------------------------------------------------------------
  // What each strategy waits
  // ---------------------------------------------------------------------------

  /** The wait by its growth: a base delay that is added again, doubled, or left alone by each failure. */
  function Growing(base: real, strategy: Strategy, attempt: nat): real
    requires attempt >= 1
  {
    if attempt == 1 then base
    else
      match strategy
      case Linear => Growing(base, strategy, attempt - 1) + base
      case Exponential => Growing(base, strategy, attempt - 1) + Growing(base, strategy, attempt - 1)
      case Fixed => Growing(base, strategy, attempt - 1)
  }

  /** After a rate limit the wait doubles whatever the strategy, up to the cap. */
  function Nominal(p: Policy, attempt: nat, isRateLimit: bool): real
    requires attempt >= 1
  {
    if isRateLimit then Min(Growing(p.baseDelay, Exponential, attempt), p.rateLimitMaxDelay)
    else Growing(p.baseDelay, p.strategy, attempt)
  }

  lemma {:induction false} GrowthInClosedForm(base: real, attempt: nat)
    requires attempt >= 1 && base >= 0.0
    ensures Growing(base, Linear, attempt) == Times(base, attempt as real)
    ensures Growing(base, Exponential, attempt) == Times(base, Pow2(attempt - 1) as real)
    ensures Growing(base, Fixed, attempt) == base
    ensures forall strategy :: Growing(base, strategy, attempt) >= base
  {
    hide Times;
    TimesOne(base);
    if attempt > 1 {
      GrowthInClosedForm(base, attempt - 1);
      TimesSum(base, (attempt - 1) as real, 1.0);
      var half := Pow2(attempt - 2) as real;
      assert Pow2(attempt - 1) == 2 * Pow2(attempt - 2);
      TimesSum(base, half, half);
    }
  }

  lemma RawDelayIsNominal(p: Policy, attempt: nat, isRateLimit: bool)
    requires ValidPolicy(p) && attempt >= 1
    ensures RawDelay(p, attempt, isRateLimit) == Nominal(p, attempt, isRateLimit) >= Min(p.baseDelay, p.rateLimitMaxDelay) >= 0.0
  {
    hide Times, Growing, Pow2;
    GrowthInClosedForm(p.baseDelay, attempt);
  }

  /**
   Without a hint the wait is the strategy's own, to the second: exactly so without jitter, and
   otherwise within the jitter of it, never under a second and after a rate limit never over the cap.
   */
  lemma WaitsAroundTheNominal(p: Policy, attempt: nat, isRateLimit: bool, draw: real)
    requires ValidPolicy(p) && attempt >= 1 && IsDraw(draw)
    ensures var d, r := Delay(p, attempt, None, isRateLimit, draw) as real, Nominal(p, attempt, isRateLimit);
            && (!p.jitter || r == 0.0 ==> d <= r < d + 1.0)
            && (p.jitter && r > 0.0 ==>
                  var least, most := Max(1.0, r - Times(r, p.jitterMax)), Max(1.0, r + Times(r, p.jitterMax));
                  && d <= most && d + 1.0 > (if isRateLimit then Min(least, p.rateLimitMaxDelay) else least)
                  && (isRateLimit ==> d <= p.rateLimitMaxDelay))
  {
    hide Times, RawDelay, Nominal, Truncate;
    var r := Nominal(p, attempt, isRateLimit);
    RawDelayIsNominal(p, attempt, isRateLimit);
    RateLimitIsCapped(p, attempt);
    JitterBounds(p, r, draw);
    var jittered := Jittered(p, r, draw);
    var waited := if isRateLimit then Min(jittered, p.rateLimitMaxDelay) else jittered;
    TruncateIsFloor(waited, waited);
  }

  lemma RateLimitIsCapped(p: Policy, attempt: nat)
    requires attempt >= 1
    ensures Nominal(p, attempt, true) <= p.rateLimitMaxDelay
  {
  }

  /** Exponential backoff never shortens, whatever the draws. */
  ghost predicate NeverShortens(p: Policy) {
    forall n: nat, u: real, v: real :: n >= 1 && IsDraw(u) && IsDraw(v) ==>
      Delay(p, n, None, false, u) <= Delay(p, n + 1, None, false, v)
  }

  /** The exponential delay doubles. */
  lemma RawDelayDoubles(p: Policy, n: nat)
    requires ValidPolicy(p) && p.strategy == Exponential && n >= 1
    ensures RawDelay(p, n, false) >= 0.0
    ensures RawDelay(p, n + 1, false) == RawDelay(p, n, false) + RawDelay(p, n, false)
  {
    hide Times;
    var x := Pow2(n - 1) as real;
    TimesNonNegative(p.baseDelay, x);
    assert Pow2(n) == 2 * Pow2(n - 1);
    TimesSum(p.baseDelay, x, x);
  }

  lemma DoublingOutrunsJitter(p: Policy, n: nat, u: real, v: real)
    requires ValidPolicy(p) && p.strategy == Exponential && n >= 1 && IsDraw(u) && IsDraw(v)
    requires p.jitter ==> p.jitterMax <= 1.0 / 3.0
    ensures Delay(p, n, None, false, u) <= Delay(p, n + 1, None, false, v)
  {
    hide Times, RawDelay, Pow2, Truncate;
    var d, e := RawDelay(p, n, false), RawDelay(p, n + 1, false);
    RawDelayDoubles(p, n);
    JitterBounds(p, d, u);
    JitterBounds(p, e, v);
    TimesSum(p.jitterMax, d, d);
    if p.jitter {
      TimesGrows(d, p.jitterMax, 1.0 / 3.0);
      TimesOne(d);
    }
    TruncateIsFloor(Jittered(p, d, u), Jittered(p, e, v));
  }

  lemma NarrowJitterNeverShortens(p: Policy)
    requires ValidPolicy(p) && p.strategy == Exponential && (p.jitter ==> p.jitterMax <= 1.0 / 3.0)
    ensures NeverShortens(p)
  {
    forall n: nat, u: real, v: real | n >= 1 && IsDraw(u) && IsDraw(v)
      ensures Delay(p, n, None, false, u) <= Delay(p, n + 1, None, false, v)
    {
      DoublingOutrunsJitter(p, n, u, v);
    }
  }

  /**
   The exact condition on the jitter setting: every base delay gives a backoff that
   never shortens, exactly when jitter is off or at most a third.
   */
  lemma MonotoneIffJitterAtMostAThird(p: Policy)
    requires ValidPolicy(p) && p.strategy == Exponential
    ensures (!p.jitter || p.jitterMax <= 1.0 / 3.0) <==>
            forall base: real :: base >= 0.0 ==> NeverShortens(p.(baseDelay := base))
  {
    hide NeverShortens;
    if !p.jitter || p.jitterMax <= 1.0 / 3.0 {
      forall base: real | base >= 0.0
        ensures NeverShortens(p.(baseDelay := base))
      {
        NarrowJitterNeverShortens(p.(baseDelay := base));
      }
    } else {
      WideJitterShortens(p);
    }
  }

  lemma WideJitterShortens(p: Policy)
    requires ValidPolicy(p) && p.strategy == Exponential && p.jitter && p.jitterMax > 1.0 / 3.0
    ensures exists base: real :: base >= 0.0 && !NeverShortens(p.(baseDelay := base))
  {
    var base := WideJitterBase(p.jitterMax);
    var q := p.(baseDelay := base);
    WideJitterDelays(q);
    assert !NeverShortens(q);
  }

  /** A base delay whose longest first wait exceeds its shortest second wait by two seconds. */
  lemma WideJitterBase(j: real) returns (base: real)
    requires 1.0 / 3.0 < j <= 1.0
    ensures base >= 1.0 && Times(base, j) + Times(base, j) + Times(base, j) == base + 2.0
  {
    var k := 3.0 * j - 1.0;
    base := 2.0 / k;
    assert Times(k, base) == 2.0;
    if base < 1.0 {
      TimesPositive(k, 1.0 - base);
      TimesSum(k, base, 1.0 - base);
    }
  }

  lemma WideJitterDelays(q: Policy)
    requires ValidPolicy(q) && q.strategy == Exponential && q.jitter && q.baseDelay >= 1.0
    requires var spread := Times(q.baseDelay, q.jitterMax); spread + spread + spread == q.baseDelay + 2.0
    ensures Delay(q, 1, None, false, 1.0) > Delay(q, 2, None, false, 0.0)
  {
    hide Times;
    var base, spread := q.baseDelay, Times(q.baseDelay, q.jitterMax);
    assert Pow2(0) == 1;
    TimesOne(base);
    RawDelayDoubles(q, 1);
    TimesSum(q.jitterMax, base, base);
    TimesOne(spread + spread);
    TimesOne(spread + spread + spread + spread);
    assert RawDelay(q, 1, false) == base && RawDelay(q, 2, false) == base + base;
    assert Jittered(q, base, 1.0) == Max(1.0, base + spread);
    assert Jittered(q, base + base, 0.0) == Max(1.0, base + base - (spread + spread));
  }

  /** The seconds waited over the first |draws| retries of an exponential policy. */
  function TotalWait(p: Policy, draws: seq<real>): int {
    if draws == [] then 0
    else TotalWait(p, draws[..|draws| - 1]) + Delay(p, |draws|, None, false, draws[|draws| - 1])
  }

  /** What k exponential delays add up to before jitter: base * (2^k - 1). */
  function Geometric(p: Policy, k: nat): real {
    Times(p.baseDelay, (Pow2(k) - 1) as real)
  }

  lemma OneWait(p: Policy, n: nat, draw: real)
    requires ValidPolicy(p) && p.strategy == Exponential && n >= 1 && IsDraw(draw)
    ensures 0 <= Delay(p, n, None, false, draw)
    ensures var d := Times(p.baseDelay, Pow2(n - 1) as real);
            Delay(p, n, None, false, draw) as real <= 1.0 + d + Times(d, p.jitterMax)
  {
    hide Times;
    var d := RawDelay(p, n, false);
    TimesNonNegative(p.baseDelay, Pow2(n - 1) as real);
    JitterBounds(p, d, draw);
    TruncateIsFloor(Jittered(p, d, draw), Jittered(p, d, draw));
  }

  lemma GeometricStep(p: Policy, n: nat)
    requires n >= 1
    ensures Geometric(p, n) == Geometric(p, n - 1) + Times(p.baseDelay, Pow2(n - 1) as real)
  {
    hide Times;
    assert Pow2(n) - 1 == (Pow2(n - 1) - 1) + Pow2(n - 1);
    TimesSum(p.baseDelay, (Pow2(n - 1) - 1) as real, Pow2(n - 1) as real);
  }

  lemma {:induction false} WaitsAddUp(p: Policy, draws: seq<real>)
    requires ValidPolicy(p) && p.strategy == Exponential
    requires forall i :: 0 <= i < |draws| ==> IsDraw(draws[i])
    ensures var g := Geometric(p, |draws|);
            TotalWait(p, draws) as real <= (|draws| as real) + g + Times(g, p.jitterMax)
  {
    hide Times, Delay, Geometric;
    if draws == [] {
      GeometricZero(p);
    } else {
      var n := |draws|;
      WaitsAddUp(p, draws[..n - 1]);
      OneWait(p, n, draws[n - 1]);
      GeometricStep(p, n);
      TimesSum(p.jitterMax, Geometric(p, n - 1), Times(p.baseDelay, Pow2(n - 1) as real));
    }
  }

  lemma GeometricZero(p: Policy)
    ensures Geometric(p, 0) == 0.0 && Times(Geometric(p, 0), p.jitterMax) == 0.0
  {
  }

  /** k retries wait at most k + (1 + jitter_max) * base * (2^k - 1) seconds. */
  lemma TotalWaitIsBounded(p: Policy, draws: seq<real>)
    requires ValidPolicy(p) && p.strategy == Exponential
    requires forall i :: 0 <= i < |draws| ==> IsDraw(draws[i])
    ensures TotalWait(p, draws) as real <=
            (|draws| as real) + (1.0 + p.jitterMax) * (p.baseDelay * ((Pow2(|draws|) - 1) as real))
  {
    hide TotalWait, Times, Pow2, Geometric;
    WaitsAddUp(p, draws);
    GeometricIs(p, |draws|);
    Expand(p.jitterMax, Geometric(p, |draws|));
  }

  lemma GeometricIs(p: Policy, k: nat)
    ensures Geometric(p, k) == p.baseDelay * ((Pow2(k) - 1) as real)
  {
  }

  lemma Expand(j: real, x: real)
    ensures (1.0 + j) * x == x + Times(x, j)
  {
  }

  // ---------------------------------------------------------------------------
  // A series of failures
  // ---------------------------------------------------------------------------

  /** An exception no retry follows, whatever its attempt: skipped, or outside a list that is given. */
  predicate IsFinal(p: Policy, exception: Option<string>) {
    && exception.Some?
    && (|| exception.value in p.skipExceptions
        || (!IsRateLimit(p, exception) && p.retryExceptions != {} && exception.value !in p.retryExceptions))
  }

  /** The attempts made from the n-th on, when the i-th attempt fails with failures[i - 1]. */
  function AttemptsMade(p: Policy, failures: seq<Option<string>>, n: nat): nat
    requires 1 <= n <= p.maxAttempts <= |failures|
    decreases p.maxAttempts - n
  {
    if ShouldRetry(p, n, failures[n - 1]) then AttemptsMade(p, failures, n + 1) else n
  }

  /** A task that keeps failing is tried up to its first final exception, or to the limit. */
  lemma {:induction false} SeriesEndsAtFirstFinal(p: Policy, failures: seq<Option<string>>, n: nat)
    requires 1 <= n <= p.maxAttempts <= |failures|
    ensures var k := AttemptsMade(p, failures, n);
            && n <= k <= p.maxAttempts
            && (forall i :: n - 1 <= i < k - 1 ==> !IsFinal(p, failures[i]))
            && (k == p.maxAttempts || IsFinal(p, failures[k - 1]))
    decreases p.maxAttempts - n
  {
    if ShouldRetry(p, n, failures[n - 1]) {
      SeriesEndsAtFirstFinal(p, failures, n + 1);
    }
  }

  /** A policy as generous as another: a limit as high, no more skips, no fewer exceptions let through. */
  ghost predicate AsGenerous(p: Policy, q: Policy) {
    && p.maxAttempts <= q.maxAttempts
    && q.skipExceptions <= p.skipExceptions
    && p.rateLimitExceptions <= q.rateLimitExceptions
    && (q.retryExceptions == {} || (p.retryExceptions != {} && p.retryExceptions <= q.retryExceptions))
  }

  /** It gives up no sooner, on any series of failures. */
  lemma GenerosityNeverGivesUpSooner(p: Policy, q: Policy, failures: seq<Option<string>>)
    requires 1 <= p.maxAttempts && AsGenerous(p, q) && q.maxAttempts <= |failures|
    ensures AttemptsMade(p, failures, 1) <= AttemptsMade(q, failures, 1)
  {
    SeriesEndsAtFirstFinal(p, failures, 1);
    SeriesEndsAtFirstFinal(q, failures, 1);
    FewerAreFinal(p, q, failures[AttemptsMade(q, failures, 1) - 1]);
  }

  lemma FewerAreFinal(p: Policy, q: Policy, exception: Option<string>)
    requires AsGenerous(p, q)
    ensures IsFinal(q, exception) ==> IsFinal(p, exception)
  {
  }
}
