/** Upstream fetches: outcome classes of one GET, the retry loop and its backoff
    (internal/proxy/proxy.go, internal/proxy/retry.go). Durations are nanoseconds. */
module Upstream {
  import opened Foundation

  const SECOND: int := 1_000_000_000
  const TWO_63: int := 0x8000_0000_0000_0000
  const TWO_64: int := 0x1_0000_0000_0000_0000

  /** The int64 that 64-bit wrap-around arithmetic gives for x. */
  function Wrap64(x: int): (w: int)
    ensures -TWO_63 <= w < TWO_63
    ensures -TWO_63 <= x < TWO_63 ==> w == x
    decreases if x < 0 then -2 * x else 2 * x + 1
  {
    if x >= TWO_63 then Wrap64(x - TWO_64) else if x < -TWO_63 then Wrap64(x + TWO_64) else x
  }

  datatype FetchError =
    | HttpStatus(code: int, retryAfter: int)   // retryAfter is 0 when there is no usable header
    | Network
    | Canceled
    | RateLimited

  /** The ([]byte, error) that fetchFromUpstream and the single-flight fn return. */
  datatype FetchResult = Fetched(body: Bytes) | Failed(error: FetchError)

  /** Why the HTTP client gives up: the connection broke, or the request's context was cancelled or timed out. */
  datatype ClientError = Broken | ContextDone

  /** What the HTTP client sees. A Retry-After header counts when it parses as an integer. */
  datatype Response =
    | NoResponse(error: ClientError)
    | Answer(status: int, retryAfter: Option<int>, body: Bytes, readError: Option<ClientError>)

  function ErrorOf(e: ClientError): FetchError { if e.ContextDone? then Canceled else Network }

  /** doFetch */
  function Classify(resp: Response): FetchResult {
    match resp
    case NoResponse(e) => Failed(ErrorOf(e))
    case Answer(status, retryAfter, body, readError) =>
      if status != 200 then
        Failed(HttpStatus(status,
          if status == 429 && retryAfter.Some? && retryAfter.value > 0 then Wrap64(retryAfter.value * SECOND) else 0))
      else if readError.Some? then
        Failed(ErrorOf(readError.value))
      else
        Fetched(body)
  }

  predicate IsRetryable(e: FetchError) {
    match e
    case Canceled => false
    case HttpStatus(code, _) => code in {429, 500, 502, 503, 504}
    case Network => true
    case RateLimited => true
  }

  datatype RetryConfig = RetryConfig(maxAttempts: int, baseDelay: int, maxDelay: int)

  const DEFAULT_CONFIG := RetryConfig(3, 100_000_000, 2_000_000_000)

  // ---- The loop, one step at a time ----------------------------------------------------------------

  datatype Loop = Get(attempt: nat) | Backoff(attempt: nat) | Exit(result: FetchResult)

  function Start(max: int): Loop {
    if max <= 0 then Exit(Fetched([])) else Get(0)   // no attempt: the loop falls through to a nil error
  }

  function AfterGet(attempt: nat, max: int, r: FetchResult): Loop {
    if r.Fetched? || attempt == max - 1 || !IsRetryable(r.error) then Exit(r) else Backoff(attempt)
  }

  function AfterBackoff(attempt: nat, max: int, cancelled: bool): Loop {
    if cancelled then Exit(Failed(Canceled)) else Get(attempt + 1)
  }

  /** A result after which the loop does not try again. */
  predicate Conclusive(r: FetchResult) { r.Fetched? || !IsRetryable(r.error) }

  /** What a fetch over the stream of results must have done: it stopped after its last GET because that
      was conclusive or the last allowed, or because the backoff after it was cancelled. */
  ghost predicate Outcome(results: nat -> FetchResult, cancelled: nat -> bool, max: int,
                          r: FetchResult, gets: nat, retries: nat)
  {
    && 1 <= gets <= max
    && (forall i: nat :: i < gets - 1 ==> !Conclusive(results(i)) && !cancelled(i))
    && (if Conclusive(results(gets - 1)) || gets == max
        then r == results(gets - 1) && retries == gets - 1
        else cancelled(gets - 1) && r == Failed(Canceled) && retries == gets)
  }

  /** The step functions that drive interleaved requests are this loop: from attempt i they reach the same
      exit, after the same number of further GETs. */
  ghost function Drive(l: Loop, max: int, results: nat -> FetchResult, cancelled: nat -> bool): (end: (FetchResult, nat))
    requires !l.Exit? ==> l.attempt < max
    requires l.Backoff? ==> l.attempt < max - 1
    decreases if l.Exit? then 0 else 2 * (max - l.attempt) - (if l.Backoff? then 1 else 0)
  {
    match l
    case Exit(r) => (r, 0)
    case Get(i) => var end := Drive(AfterGet(i, max, results(i)), max, results, cancelled); (end.0, end.1 + 1)
    case Backoff(i) => Drive(AfterBackoff(i, max, cancelled(i)), max, results, cancelled)
  }

  lemma {:induction false} StepsFollowTheLoop(results: nat -> FetchResult, cancelled: nat -> bool, max: int,
                                              r: FetchResult, gets: nat, retries: nat, i: nat)
    requires Outcome(results, cancelled, max, r, gets, retries) && i < gets
    ensures Drive(Get(i), max, results, cancelled) == (r, gets - i)
    decreases gets - i
  {
    var next := AfterGet(i, max, results(i));
    if i < gets - 1 {
      StepsFollowTheLoop(results, cancelled, max, r, gets, retries, i + 1);
      assert !Conclusive(results(i)) && !cancelled(i);
      assert next == Backoff(i) && AfterBackoff(i, max, cancelled(i)) == Get(i + 1);
      assert Drive(next, max, results, cancelled) == (r, gets - i - 1);
    } else {
      assert next == if Conclusive(results(i)) || gets == max then Exit(r) else Backoff(i);
      assert Drive(next, max, results, cancelled) == (r, 0);
    }
  }

  // ---- What the client sees, and what the fetch makes of it ----------------------------------------

  /** A response with the status 200 whose body b was read to its end. */
  ghost predicate Complete(resp: Response, b: Bytes) {
    resp.Answer? && resp.status == 200 && resp.readError == None && resp.body == b
  }

  /** What is worth another attempt: a broken connection, before or inside the body, and five status codes. */
  ghost predicate Transient(resp: Response) {
    match resp
    case NoResponse(error) => error == Broken
    case Answer(status, _, _, readError) =>
      || status == 429 || status == 500 || status == 502 || status == 503 || status == 504
      || (status == 200 && readError == Some(Broken))
  }

  /** The request's context was done before the body was read to its end. */
  ghost predicate GivenUp(resp: Response) {
    || (resp.NoResponse? && resp.error == ContextDone)
    || (resp.Answer? && resp.status == 200 && resp.readError == Some(ContextDone))
  }

  /** r is what the response resp means to the caller. */
  ghost predicate Reports(r: FetchResult, resp: Response) {
    && (forall b :: r == Fetched(b) <==> Complete(resp, b))
    && (r == Failed(Canceled) <==> GivenUp(resp))
    && (r == Failed(Network) <==> (if resp.NoResponse? then resp.error == Broken else resp.status == 200 && resp.readError == Some(Broken)))
    && (if resp.Answer? && resp.status != 200 then r.Failed? && r.error.HttpStatus? && r.error.code == resp.status
        else r.Fetched? || !r.error.HttpStatus?)
  }

  lemma ClassifyReports(resp: Response)
    ensures Reports(Classify(resp), resp)
    ensures Conclusive(Classify(resp)) <==> !Transient(resp)
  {
  }

  /** What a fetch over the stream of responses must have done: it stopped after its last GET because that was
      not worth another attempt or was the last allowed, and reports it; or because the backoff after it was
      cancelled. */
  ghost predicate IsOutcome(responses: nat -> Response, cancelled: nat -> bool, max: int, r: FetchResult, gets: nat, retries: nat) {
    && 1 <= gets <= max
    && (forall i: nat :: i < gets - 1 ==> Transient(responses(i)) && !cancelled(i))
    && (if !Transient(responses(gets - 1)) || gets == max
        then Reports(r, responses(gets - 1)) && retries == gets - 1
        else cancelled(gets - 1) && r == Failed(Canceled) && retries == gets)
  }

  /** doFetch on each response. */
  function Results(responses: nat -> Response): nat -> FetchResult { (i: nat) => Classify(responses(i)) }

  lemma OutcomeIs(responses: nat -> Response, cancelled: nat -> bool, max: int, r: FetchResult, gets: nat, retries: nat)
    requires Outcome(Results(responses), cancelled, max, r, gets, retries)
    ensures IsOutcome(responses, cancelled, max, r, gets, retries)
  {
    forall i: nat ensures Conclusive(Results(responses)(i)) <==> !Transient(responses(i)) {
      ClassifyReports(responses(i));
    }
    ClassifyReports(responses(gets - 1));
  }

  /** fetchFromUpstream against the stream of responses, the cancellations of its backoffs and the
      random jitter factors. slept is the time spent in backoffs that ran to their end or were cut short. */
  method FetchFromUpstream(cfg: RetryConfig, responses: nat -> Response, cancelled: nat -> bool, jitter: nat -> real)
    returns (r: FetchResult, gets: nat, retries: nat, slept: int)
    ensures cfg.maxAttempts <= 0 ==> r == Fetched([]) && gets == 0 && retries == 0
    ensures cfg.maxAttempts > 0 ==> IsOutcome(responses, cancelled, cfg.maxAttempts, r, gets, retries)
    ensures cfg.maxAttempts > 0 ==> Outcome(Results(responses), cancelled, cfg.maxAttempts, r, gets, retries)
    ensures slept == TotalDelay(cfg, Results(responses), jitter, retries)
  {
    ghost var results := Results(responses);
    gets, retries, slept := 0, 0, 0;
    var lastErr: Option<FetchError> := None;
    var attempt := 0;
    while attempt < cfg.maxAttempts
      invariant 0 <= attempt && gets == attempt && retries == attempt
      invariant if cfg.maxAttempts > 0 then attempt < cfg.maxAttempts else attempt == 0
      invariant slept == TotalDelay(cfg, results, jitter, attempt)
      invariant forall i: nat :: i < attempt ==> !Conclusive(results(i)) && !cancelled(i)
      invariant attempt == 0 ==> lastErr == None
    {
      var answer := Classify(responses(attempt));
      gets := gets + 1;
      if answer.Fetched? {
        OutcomeIs(responses, cancelled, cfg.maxAttempts, answer, gets, retries);
        return answer, gets, retries, slept;
      }
      lastErr := Some(answer.error);
      if attempt == cfg.maxAttempts - 1 || !IsRetryable(answer.error) {
        break;
      }
      var delay := RetryDelay(cfg, attempt, answer.error, jitter(attempt));
      retries := retries + 1;
      slept := slept + delay;
      if cancelled(attempt) {
        OutcomeIs(responses, cancelled, cfg.maxAttempts, Failed(Canceled), gets, retries);
        return Failed(Canceled), gets, retries, slept;
      }
      attempt := attempt + 1;
    }
    r := if lastErr.Some? then Failed(lastErr.value) else Fetched([]);
    if cfg.maxAttempts > 0 { OutcomeIs(responses, cancelled, cfg.maxAttempts, r, gets, retries); }
  }

  /** Exactly what a fetch does with the responses that it meets, the first that is not transient being
      number j: it makes min(j + 1, max) GETs and one retry less, and reports its last response. A backoff
      that is cancelled before that ends it with the context's error. */
  lemma OutcomeIsExact(responses: nat -> Response, cancelled: nat -> bool, max: int,
                       r: FetchResult, gets: nat, retries: nat, j: nat)
    requires IsOutcome(responses, cancelled, max, r, gets, retries)
    requires forall i: nat :: i < j ==> Transient(responses(i))
    requires j < max ==> !Transient(responses(j))
    ensures (forall i: nat :: i < j && i < max - 1 ==> !cancelled(i)) ==>
              && gets == (if j < max then j + 1 else max) && retries == gets - 1
              && Reports(r, responses(gets - 1))
    ensures forall c: nat :: c < j && c < max - 1 && cancelled(c) && (forall i: nat :: i < c ==> !cancelled(i)) ==>
              gets == c + 1 && retries == c + 1 && r == Failed(Canceled)
  {
    forall c: nat | c < j && c < max - 1 && cancelled(c) && (forall i: nat :: i < c ==> !cancelled(i))
      ensures gets == c + 1 && retries == c + 1 && r == Failed(Canceled)
    {
      assert gets - 1 <= c;
    }
  }

  /** A GET that was cancelled is not tried again. */
  lemma CancelledGetEnds(responses: nat -> Response, cancelled: nat -> bool, max: int,
                         r: FetchResult, gets: nat, retries: nat, j: nat)
    requires IsOutcome(responses, cancelled, max, r, gets, retries)
    requires j < max && GivenUp(responses(j)) && forall i: nat :: i < j ==> Transient(responses(i)) && !cancelled(i)
    ensures gets == j + 1 && retries == j && r == Failed(Canceled)
  {
    OutcomeIsExact(responses, cancelled, max, r, gets, retries, j);
  }

  /** Some response within the limit is complete with b, and until then all are transient and no backoff is
      cancelled. */
  ghost predicate Yields(responses: nat -> Response, cancelled: nat -> bool, max: int, b: Bytes) {
    exists i: nat :: i < max && Complete(responses(i), b) && forall k: nat :: k < i ==> Transient(responses(k)) && !cancelled(k)
  }

  /** A fetch yields b if and only if its responses do. */
  lemma FetchedIff(responses: nat -> Response, cancelled: nat -> bool, max: int,
                   r: FetchResult, gets: nat, retries: nat, b: Bytes)
    requires IsOutcome(responses, cancelled, max, r, gets, retries)
    ensures r == Fetched(b) <==> Yields(responses, cancelled, max, b)
  {
    if r == Fetched(b) { assert Complete(responses(gets - 1), b); }
    if i: nat :| i < max && Complete(responses(i), b) && forall k: nat :: k < i ==> Transient(responses(k)) && !cancelled(k) {
      assert i == gets - 1;
    }
  }

  // ---- Backoff -------------------------------------------------------------------------------------

  function Pow2(n: nat): (p: nat)
    ensures p >= 1
  {
    if n == 0 then 1 else 2 * Pow2(n - 1)
  }

  /** base * 2^n, without overflow. */
  function Grown(base: int, n: nat): int {
    if n == 0 then base else 2 * Grown(base, n - 1)
  }

  lemma {:induction false} GrownIsProduct(base: int, n: nat)
    ensures Grown(base, n) == base * Pow2(n)
  {
    if n > 0 {
      GrownIsProduct(base, n - 1);
      assert base * (2 * Pow2(n - 1)) == 2 * (base * Pow2(n - 1));
    }
  }

  lemma {:induction false} GrownMonotone(base: int, m: nat, n: nat)
    requires base >= 0 && m <= n
    ensures 0 <= Grown(base, m) <= Grown(base, n)
    decreases n
  {
    if n > 0 { GrownMonotone(base, if m < n then m else n - 1, n - 1); }
  }

  /** baseDelay * (1 << attempt) in int64 arithmetic. */
  function Shifted(base: int, attempt: nat): int { Wrap64(base * Wrap64(Pow2(attempt))) }

  function Capped(cfg: RetryConfig, attempt: nat): int {
    var delay := Shifted(cfg.baseDelay, attempt);
    if delay > cfg.maxDelay then cfg.maxDelay else delay
  }

  /** Go's conversion of a float to an integer. */
  function Truncate(x: real): int {
    if x >= 0.0 then x.Floor else -((-x).Floor)
  }

  function Jittered(delay: int, factor: real): int { Truncate(delay as real * factor) }

  function RetryDelay(cfg: RetryConfig, attempt: nat, e: FetchError, factor: real): int {
    if e.HttpStatus? && e.retryAfter > 0 then
      if e.retryAfter > cfg.maxDelay then cfg.maxDelay else e.retryAfter
    else
      Jittered(Capped(cfg, attempt), factor)
  }

  function Min(a: int, b: int): int { if a <= b then a else b }

  /** When no shift overflows, the delay is the capped Retry-After (section 10.2.3 of RFC 9110), or it is
      min(base * 2^attempt, max) times the random factor, truncated, and so lies within a quarter of it.
      Jitter comes after the cap, so the delay can exceed maxDelay. */
  lemma DelayBounds(cfg: RetryConfig, attempt: nat, e: FetchError, factor: real)
    requires cfg.baseDelay >= 0 && cfg.maxDelay >= 0
    requires Grown(cfg.baseDelay, attempt) < TWO_63
    requires 0.75 <= factor < 1.25
    ensures var d := RetryDelay(cfg, attempt, e, factor);
            if e.HttpStatus? && e.retryAfter > 0
            then d == Min(e.retryAfter, cfg.maxDelay)
            else var c := Min(Grown(cfg.baseDelay, attempt), cfg.maxDelay) as real;
                 0.75 * c - 1.0 < d as real <= 1.25 * c && (c > 0.0 ==> d as real < 1.25 * c)
  {
    var c := Min(Grown(cfg.baseDelay, attempt), cfg.maxDelay);
    assert Capped(cfg, attempt) == c >= 0 by { CappedIsMin(cfg, attempt); }
    if !(e.HttpStatus? && e.retryAfter > 0) {
      assert RetryDelay(cfg, attempt, e, factor) == Jittered(c, factor);
      JitterBounds(c, factor);
    }
  }

  /** Exactly: the capped delay times the factor, truncated. */
  lemma DelayIsJittered(cfg: RetryConfig, attempt: nat, e: FetchError, factor: real)
    requires cfg.baseDelay >= 0 && cfg.maxDelay >= 0 && Grown(cfg.baseDelay, attempt) < TWO_63
    requires 0.75 <= factor < 1.25 && (e.HttpStatus? ==> e.retryAfter <= 0)
    ensures var c, d := Min(Grown(cfg.baseDelay, attempt), cfg.maxDelay), RetryDelay(cfg, attempt, e, factor);
            d as real <= c as real * factor < d as real + 1.0
  {
    var c := Min(Grown(cfg.baseDelay, attempt), cfg.maxDelay);
    CappedIsMin(cfg, attempt);
    ScaleBounds(c as real, factor);
    TruncateBounds(c as real * factor);
  }

  lemma CappedIsMin(cfg: RetryConfig, attempt: nat)
    requires cfg.baseDelay >= 0 && cfg.maxDelay >= 0
    requires Grown(cfg.baseDelay, attempt) < TWO_63
    ensures Capped(cfg, attempt) == Min(Grown(cfg.baseDelay, attempt), cfg.maxDelay) >= 0
  {
    ShiftedIsExact(cfg.baseDelay, attempt);
    GrownMonotone(cfg.baseDelay, 0, attempt);
  }

  lemma TruncateBounds(x: real)
    requires x >= 0.0
    ensures x - 1.0 < Truncate(x) as real <= x
  {
  }

  lemma JitterBounds(c: int, factor: real)
    requires c >= 0 && 0.75 <= factor < 1.25
    ensures var d := Jittered(c, factor) as real;
            0.75 * c as real - 1.0 < d <= 1.25 * c as real && (c > 0 ==> d < 1.25 * c as real)
  {
    var x := c as real * factor;
    assert 0.75 * c as real <= x <= 1.25 * c as real && (c > 0 ==> x < 1.25 * c as real) by { ScaleBounds(c as real, factor); }
    TruncateBounds(x);
  }

  lemma ScaleBounds(c: real, f: real)
    requires c >= 0.0 && 0.75 <= f < 1.25
    ensures 0.75 * c <= c * f <= 1.25 * c
    ensures c > 0.0 ==> c * f < 1.25 * c
  {
    assert c * (f - 0.75) >= 0.0 && c * (1.25 - f) >= 0.0;
    assert c > 0.0 ==> c * (1.25 - f) > 0.0;
  }

  lemma MulAtLeast(b: int, p: int)
    requires b >= 1 && p >= 0
    ensures b * p >= p
  {
  }

  lemma ShiftedIsExact(base: int, attempt: nat)
    requires base >= 0 && Grown(base, attempt) < TWO_63
    ensures Shifted(base, attempt) == Grown(base, attempt)
  {
    var p := Pow2(attempt);
    GrownIsProduct(base, attempt);
    GrownMonotone(base, 0, attempt);
    if base >= 1 {
      MulAtLeast(base, p);
      assert Wrap64(p) == p;
    } else {
      assert base * Wrap64(p) == 0 == base * p;
    }
  }

  lemma {:induction false} WrapIsModulo(x: int) returns (k: int)
    ensures x == Wrap64(x) + k * TWO_64
    decreases if x < 0 then -2 * x else 2 * x + 1
  {
    if x >= TWO_63 {
      k := WrapIsModulo(x - TWO_64);
      k := k + 1;
    } else if x < -TWO_63 {
      k := WrapIsModulo(x + TWO_64);
      k := k - 1;
    } else {
      k := 0;
    }
  }

  /** Numbers that differ by a multiple of 2^64 wrap to the same int64. */
  lemma WrapsAlike(x: int, y: int, q: int)
    requires x == y + q * TWO_64
    ensures Wrap64(x) == Wrap64(y)
  {
    var j := WrapIsModulo(x);
    var k := WrapIsModulo(y);
    assert Wrap64(x) - Wrap64(y) == (q + k - j) * TWO_64;
  }

  lemma {:induction false} Pow2Sum(m: nat, n: nat)
    ensures Pow2(m + n) == Pow2(m) * Pow2(n)
  {
    if m > 0 {
      Pow2Sum(m - 1, n);
      assert 2 * (Pow2(m - 1) * Pow2(n)) == 2 * Pow2(m - 1) * Pow2(n);
    }
  }

  lemma Pow2Of64()
    ensures Pow2(64) == TWO_64
  {
    assert Pow2(8) == 256;
    Pow2Sum(8, 8);
    Pow2Sum(16, 16);
    Pow2Sum(32, 32);
  }

  /** The bits of base that a shift by attempt leaves inside 64 bits. */
  function LowBits(base: int, attempt: nat): (low: int)
    ensures 0 <= low
  {
    base % Pow2(if attempt <= 64 then 64 - attempt else 0)
  }

  /** A shift by attempt moves the upper bits of base out by whole multiples of 2^64. */
  lemma UpperBitsAreLost(base: int, attempt: nat) returns (q: int)
    ensures base * Pow2(attempt) == LowBits(base, attempt) * Pow2(attempt) + q * TWO_64
  {
    var p := Pow2(attempt);
    Pow2Of64();
    if attempt <= 64 {
      var m := Pow2(64 - attempt);
      Pow2Sum(64 - attempt, attempt);
      q := base / m;
      assert base == LowBits(base, attempt) + q * m;
      assert base * p == LowBits(base, attempt) * p + q * (m * p) by { Distribute(LowBits(base, attempt), q, m, p); }
    } else {
      Pow2Sum(attempt - 64, 64);
      q := base * Pow2(attempt - 64);
      assert base * (Pow2(attempt - 64) * TWO_64) == base * Pow2(attempt - 64) * TWO_64;
    }
  }

  lemma Distribute(low: int, q: int, m: int, p: int)
    ensures (low + q * m) * p == low * p + q * (m * p)
  {
  }

  /** So the shifted delay is that of the low bits, wrapped once. */
  lemma ShiftedKeepsLowBits(base: int, attempt: nat)
    ensures Shifted(base, attempt) == Wrap64(Grown(LowBits(base, attempt), attempt))
    ensures 0 <= Grown(LowBits(base, attempt), attempt) < TWO_64
  {
    var p, low := Pow2(attempt), LowBits(base, attempt);
    var k := WrapIsModulo(p);
    assert base * Wrap64(p) == base * p + -(base * k) * TWO_64 by { assert base * (p - k * TWO_64) == base * p - base * k * TWO_64; }
    WrapsAlike(base * Wrap64(p), base * p, -(base * k));
    var q := UpperBitsAreLost(base, attempt);
    WrapsAlike(base * p, low * p, q);
    GrownIsProduct(low, attempt);
    LowBitsFit(base, attempt);
  }

  lemma ProductBelow(x: int, m: int, p: int)
    requires 0 <= x < m && p >= 1
    ensures 0 <= x * p < m * p
  {
    var d := m - x;
    assert m * p == x * p + d * p;
    MulAtLeast(d, p);
    if x > 0 { MulAtLeast(x, p); }
  }

  lemma LowBitsFit(base: int, attempt: nat)
    ensures 0 <= LowBits(base, attempt) * Pow2(attempt) < TWO_64
  {
    Pow2Of64();
    if attempt <= 64 {
      var m := Pow2(64 - attempt);
      Pow2Sum(64 - attempt, attempt);
      ProductBelow(LowBits(base, attempt), m, Pow2(attempt));
    }
  }

  /** The cap works exactly when the product fits, or when the bits of base that the shift keeps make up a
      delay that fits and reaches maxDelay by themselves. */
  lemma CapIsExactIff(cfg: RetryConfig, attempt: nat)
    requires cfg.baseDelay >= 0 && 0 <= cfg.maxDelay < TWO_63
    ensures Capped(cfg, attempt) == Min(Grown(cfg.baseDelay, attempt), cfg.maxDelay)
            <==> || Grown(cfg.baseDelay, attempt) < TWO_63
                 || cfg.maxDelay <= Grown(LowBits(cfg.baseDelay, attempt), attempt) < TWO_63
  {
    if Grown(cfg.baseDelay, attempt) < TWO_63 {
      ShiftedIsExact(cfg.baseDelay, attempt);
    } else {
      ShiftedKeepsLowBits(cfg.baseDelay, attempt);
    }
  }

  /** A base delay whose double overflows gives a negative second delay. */
  lemma OverflowExample()
    ensures var cfg := RetryConfig(3, 0x4000_0000_0000_0000, 2_000_000_000);
            Capped(cfg, 1) == -TWO_63 && RetryDelay(cfg, 1, Network, 1.0) < 0
  {
    var cfg := RetryConfig(3, 0x4000_0000_0000_0000, 2_000_000_000);
    assert Pow2(0) == 1 && Pow2(1) == 2;
    assert Shifted(cfg.baseDelay, 1) == Wrap64(TWO_63) == -TWO_63;
    assert -TWO_63 as real * 1.0 == -TWO_63 as real;
    assert (-(-TWO_63 as real)).Floor == TWO_63;
  }

  function DelayAfter(cfg: RetryConfig, r: FetchResult, attempt: nat, factor: real): int {
    match r
    case Failed(e) => RetryDelay(cfg, attempt, e, factor)
    case Fetched(_) => 0
  }

  /** The sum of the first n delays. */
  function TotalDelay(cfg: RetryConfig, results: nat -> FetchResult, jitter: nat -> real, n: nat): int {
    if n == 0 then 0
    else
      TotalDelay(cfg, results, jitter, n - 1) + DelayAfter(cfg, results(n - 1), n - 1, jitter(n - 1))
  }

  lemma DelayAtMost(cfg: RetryConfig, r: FetchResult, attempt: nat, factor: real)
    requires cfg.baseDelay >= 0 && cfg.maxDelay >= 0
    requires Grown(cfg.baseDelay, attempt) < TWO_63
    requires 0.75 <= factor < 1.25
    requires r.Failed? && r.error.HttpStatus? ==> r.error.retryAfter <= 0
    ensures DelayAfter(cfg, r, attempt, factor) as real <= 1.25 * Grown(cfg.baseDelay, attempt) as real
    ensures DelayAfter(cfg, r, attempt, factor) as real <= 1.25 * cfg.maxDelay as real
  {
    GrownMonotone(cfg.baseDelay, 0, attempt);
    if r.Failed? { DelayBounds(cfg, attempt, r.error, factor); }
  }

  /** n times max, without a product of two variables. */
  function Times(n: nat, max: int): int { if n == 0 then 0 else Times(n - 1, max) + max }

  lemma {:induction false} TimesMonotone(m: nat, n: nat, max: int)
    requires m <= n && max >= 0
    ensures Times(m, max) <= Times(n, max) == n * max
    decreases n
  {
    if n > 0 { TimesMonotone(if m < n then m else n - 1, n - 1, max); }
  }

  lemma {:induction false} TotalDelayBounds(cfg: RetryConfig, results: nat -> FetchResult, jitter: nat -> real, n: nat)
    requires cfg.baseDelay >= 0 && cfg.maxDelay >= 0
    requires n > 0 ==> Grown(cfg.baseDelay, n - 1) < TWO_63
    requires forall i: nat :: 0.75 <= jitter(i) < 1.25
    requires forall i: nat :: i < n && results(i).Failed? && results(i).error.HttpStatus? ==> results(i).error.retryAfter <= 0
    ensures TotalDelay(cfg, results, jitter, n) as real <= 1.25 * (Grown(cfg.baseDelay, n) - cfg.baseDelay) as real
    ensures TotalDelay(cfg, results, jitter, n) as real <= 1.25 * Times(n, cfg.maxDelay) as real
  {
    if n > 0 {
      if n > 1 { GrownMonotone(cfg.baseDelay, n - 2, n - 1); }
      TotalDelayBounds(cfg, results, jitter, n - 1);
      DelayAtMost(cfg, results(n - 1), n - 1, jitter(n - 1));
    }
  }

  /** Without Retry-After, a fetch of at most n attempts sleeps at most
      1.25 * min(base * (2^(n-1) - 1), (n-1) * max) in total. */
  lemma FetchSleepsAtMost(cfg: RetryConfig, results: nat -> FetchResult, cancelled: nat -> bool, jitter: nat -> real,
                          r: FetchResult, gets: nat, retries: nat)
    requires cfg.baseDelay >= 0 && cfg.maxDelay >= 0 && cfg.maxAttempts >= 1
    requires cfg.maxAttempts >= 2 ==> Grown(cfg.baseDelay, cfg.maxAttempts - 2) < TWO_63
    requires forall i: nat :: 0.75 <= jitter(i) < 1.25
    requires forall i: nat :: results(i).Failed? && results(i).error.HttpStatus? ==> results(i).error.retryAfter <= 0
    requires Outcome(results, cancelled, cfg.maxAttempts, r, gets, retries)
    ensures retries <= cfg.maxAttempts - 1
    ensures var n := cfg.maxAttempts;
            TotalDelay(cfg, results, jitter, retries) as real
            <= 1.25 * Min(cfg.baseDelay * (Pow2(n - 1) - 1), (n - 1) * cfg.maxDelay) as real
  {
    var n, b := cfg.maxAttempts, cfg.baseDelay;
    if retries > 0 { GrownMonotone(b, retries - 1, n - 2); }
    TotalDelayBounds(cfg, results, jitter, retries);
    GrownMonotone(b, retries, n - 1);
    GrownIsProduct(b, n - 1);
    assert b * (Pow2(n - 1) - 1) == b * Pow2(n - 1) - b;
    TimesMonotone(retries, n - 1, cfg.maxDelay);
  }

  lemma DelayAtLeast(cfg: RetryConfig, attempt: nat, e: FetchError, factor: real)
    requires cfg.baseDelay >= 0 && cfg.maxDelay >= 0 && Grown(cfg.baseDelay, attempt) < TWO_63
    requires 0.75 <= factor < 1.25 && (e.HttpStatus? ==> e.retryAfter <= 0)
    ensures RetryDelay(cfg, attempt, e, factor) as real >= 0.75 * Min(cfg.baseDelay, cfg.maxDelay) as real - 1.0
  {
    GrownMonotone(cfg.baseDelay, 0, attempt);
    DelayBounds(cfg, attempt, e, factor);
  }

  /** n times x, without a product of two variables. */
  function Added(n: nat, x: real): real { if n == 0 then 0.0 else Added(n - 1, x) + x }

  lemma {:induction false} AddedIsProduct(n: nat, x: real)
    ensures Added(n, x) == n as real * x
  {
    if n > 0 {
      AddedIsProduct(n - 1, x);
      assert (n - 1) as real == n as real - 1.0;
    }
  }

  lemma {:induction false} TotalAtLeast(cfg: RetryConfig, results: nat -> FetchResult, jitter: nat -> real, n: nat)
    requires cfg.baseDelay >= 0 && cfg.maxDelay >= 0
    requires n > 0 ==> Grown(cfg.baseDelay, n - 1) < TWO_63
    requires forall i: nat :: 0.75 <= jitter(i) < 1.25
    requires forall i: nat :: i < n ==> results(i).Failed? && (results(i).error.HttpStatus? ==> results(i).error.retryAfter <= 0)
    ensures TotalDelay(cfg, results, jitter, n) as real >= Added(n, 0.75 * Min(cfg.baseDelay, cfg.maxDelay) as real - 1.0)
  {
    if n > 0 {
      if n > 1 { GrownMonotone(cfg.baseDelay, n - 2, n - 1); }
      TotalAtLeast(cfg, results, jitter, n - 1);
      DelayAtLeast(cfg, n - 1, results(n - 1).error, jitter(n - 1));
    }
  }

  /** From below: each of n backoffs takes at least three quarters of min(base, max), up to a nanosecond. */
  lemma SleepsAtLeast(cfg: RetryConfig, results: nat -> FetchResult, jitter: nat -> real, n: nat, least: real)
    requires cfg.baseDelay >= 0 && cfg.maxDelay >= 0
    requires n > 0 ==> Grown(cfg.baseDelay, n - 1) < TWO_63
    requires forall i: nat :: 0.75 <= jitter(i) < 1.25
    requires forall i: nat :: i < n ==> results(i).Failed? && (results(i).error.HttpStatus? ==> results(i).error.retryAfter <= 0)
    requires least == 0.75 * Min(cfg.baseDelay, cfg.maxDelay) as real - 1.0
    ensures TotalDelay(cfg, results, jitter, n) as real >= n as real * least
  {
    TotalAtLeast(cfg, results, jitter, n);
    AddedIsProduct(n, least);
  }

  /** The wait after a response, in terms of the response. A 429 with a positive Retry-After of so many
      seconds is obeyed up to maxDelay, as long as the nanoseconds fit. Without one, and after every other
      failure, and when the nanoseconds overflow once, the wait is the exponential one. */
  lemma RetryAfterIsObeyed(cfg: RetryConfig, attempt: nat, resp: Response, factor: real)
    requires cfg.baseDelay >= 0 && cfg.maxDelay >= 0 && Transient(resp)
    requires Grown(cfg.baseDelay, attempt) < TWO_63
    requires 0.75 <= factor < 1.25
    ensures resp.Answer? && resp.status == 429 && resp.retryAfter.Some? && 0 < resp.retryAfter.value * 1_000_000_000 < TWO_63 ==>
              DelayAfter(cfg, Classify(resp), attempt, factor) == Min(resp.retryAfter.value * 1_000_000_000, cfg.maxDelay)
    ensures resp.NoResponse? || resp.status != 429 || resp.retryAfter == None || resp.retryAfter.value <= 0
            || TWO_63 <= resp.retryAfter.value * 1_000_000_000 <= TWO_64 ==>
              var c := Min(Grown(cfg.baseDelay, attempt), cfg.maxDelay) as real;
              0.75 * c - 1.0 < DelayAfter(cfg, Classify(resp), attempt, factor) as real <= 1.25 * c
  {
    DelayBounds(cfg, attempt, Classify(resp).error, factor);
  }

  /** With the default configuration the first wait is a tenth of a second and the second two tenths, both up
      to a quarter, and a Retry-After is obeyed up to two seconds. */
  lemma DefaultDelays(resp: Response, factor: real)
    requires Transient(resp) && 0.75 <= factor < 1.25
    ensures DEFAULT_CONFIG.maxAttempts == 3
    ensures resp.NoResponse? || resp.status != 429 || resp.retryAfter == None ==>
              && 75_000_000 <= DelayAfter(DEFAULT_CONFIG, Classify(resp), 0, factor) < 125_000_000
              && 150_000_000 <= DelayAfter(DEFAULT_CONFIG, Classify(resp), 1, factor) < 250_000_000
    ensures resp.Answer? && resp.status == 429 && resp.retryAfter.Some? && 1 <= resp.retryAfter.value <= 9_000_000_000 ==>
              DelayAfter(DEFAULT_CONFIG, Classify(resp), 0, factor)
              == if resp.retryAfter.value == 1 then 1_000_000_000 else 2_000_000_000
  {
    assert Grown(100_000_000, 1) == 200_000_000;
    RetryAfterIsObeyed(DEFAULT_CONFIG, 0, resp, factor);
    RetryAfterIsObeyed(DEFAULT_CONFIG, 1, resp, factor);
  }

  /** With the default configuration no shift overflows and a fetch sleeps at most 375 ms, unless a
      Retry-After asks for more. */
  lemma DefaultSleepsAtMost(results: nat -> FetchResult, cancelled: nat -> bool, jitter: nat -> real,
                            r: FetchResult, gets: nat, retries: nat)
    requires forall i: nat :: 0.75 <= jitter(i) < 1.25
    requires forall i: nat :: results(i).Failed? && results(i).error.HttpStatus? ==> results(i).error.retryAfter <= 0
    requires Outcome(results, cancelled, DEFAULT_CONFIG.maxAttempts, r, gets, retries)
    ensures TotalDelay(DEFAULT_CONFIG, results, jitter, retries) <= 375_000_000
  {
    assert Pow2(0) == 1 && Pow2(1) == 2 && Pow2(2) == 4;
    FetchSleepsAtMost(DEFAULT_CONFIG, results, cancelled, jitter, r, gets, retries);
  }
}
