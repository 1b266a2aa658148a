/** The bounded-retry connection loop (connect.go `connect`).

    The loop parameters are integer arithmetic over the configuration. The
    loop itself runs against a `Probe`: the outcome of each connection attempt
    and the elapsed time sampled after each failure. Sleeping between
    attempts has no effect on those inputs; the loop reports how long it
    would have slept.

    The time cutoff at connect.go:135 compares the elapsed NANOseconds times
    1000 against a MILLIsecond budget. `ClockRule.AsWritten` reproduces that
    comparison, including the wrap-around of the `int64` product;
    `ClockRule.Corrected` compares the elapsed time with the budget in the
    same unit. `OverBudget` holds both comparisons and `Stops` is the whole
    stop condition. `Retry`, `RetryLoop` and the general loop lemmas take the
    rule as a parameter; the `Corrected…` and `AsWritten…` lemmas are about
    one rule. */
module ConnectRetry {
  import opened Options
  import opened Config
  import opened Driver

  type Positive = n: int | n >= 1 witness 1

  /** The time budget when neither the override nor any base timeout is set. */
  const DefaultBudgetMs := 30000

  const NanosPerMilli := 1_000_000

  datatype RetryParams = RetryParams(maxAttempts: Positive, budgetMs: int, sleepMs: int)

  /** The configured attempt count when positive, otherwise a single attempt
      (connect.go:102-105). */
  function MaxAttempts(c: AerospikeConfig): (n: Positive)
    ensures c.maxConnectAttempts.Some? && c.maxConnectAttempts.value > 0 ==> n == c.maxConnectAttempts.value
    ensures c.maxConnectAttempts.None? || c.maxConnectAttempts.value <= 0 ==> n == 1
  {
    if c.maxConnectAttempts.Some? && c.maxConnectAttempts.value > 0 then c.maxConnectAttempts.value else 1
  }

  /** The time budget in milliseconds (connect.go:107-119): an explicit
      override wins, even when it is 0; otherwise the sum of the connect and
      login timeouts when either is set (an absent one counting 0, the login
      timeout counting even without credentials); otherwise 30 seconds. */
  function RetryBudgetMs(c: AerospikeConfig): (ms: int)
    ensures c.maxConnectRetryTimeMs.Some? ==> ms == c.maxConnectRetryTimeMs.value
    ensures c.maxConnectRetryTimeMs.None? && (ConnectTimeoutMs(c).Some? || LoginTimeoutMs(c).Some?) ==>
              ms == ConnectTimeoutMs(c).Or(0) + LoginTimeoutMs(c).Or(0)
    ensures c.maxConnectRetryTimeMs.None? && ConnectTimeoutMs(c).None? && LoginTimeoutMs(c).None? ==>
              ms == DefaultBudgetMs
  {
    var computed :=
      if c.policies.Some? && c.policies.value.base.Some? && c.policies.value.base.value.timeoutMs.Some? &&
         (c.policies.value.base.value.timeoutMs.value.connect.Some? || c.policies.value.base.value.timeoutMs.value.login.Some?)
      then
        var t := c.policies.value.base.value.timeoutMs.value;
        var fromConnect := if t.connect.Some? then t.connect.value else 0;
        if t.login.Some? then fromConnect + t.login.value else fromConnect
      else DefaultBudgetMs;
    if c.maxConnectRetryTimeMs.Some? then c.maxConnectRetryTimeMs.value else computed
  }

  /** The pause between attempts, none unless configured (connect.go:121-124). */
  function RetrySleepMs(c: AerospikeConfig): (ms: int)
    ensures c.connectRetrySleepMs.None? ==> ms == 0
    ensures c.connectRetrySleepMs.Some? ==> ms == c.connectRetrySleepMs.value
  {
    if c.connectRetrySleepMs.Some? then c.connectRetrySleepMs.value else 0
  }

  function Params(c: AerospikeConfig): RetryParams {
    RetryParams(MaxAttempts(c), RetryBudgetMs(c), RetrySleepMs(c))
  }

  /** The sleep actually taken before a retry: non-positive values sleep not at all. */
  function SleepPerRetry(p: RetryParams): nat {
    if p.sleepMs > 0 then p.sleepMs else 0
  }

  /** Go's `int64` arithmetic: the value congruent to `x` modulo 2^64. */
  function WrapInt64(x: int): (r: Int64)
    ensures -0x8000_0000_0000_0000 <= x < 0x8000_0000_0000_0000 ==> r == x
    ensures (x - r) % 0x1_0000_0000_0000_0000 == 0
  {
    (x + 0x8000_0000_0000_0000) % 0x1_0000_0000_0000_0000 - 0x8000_0000_0000_0000
  }

  datatype ClockRule = AsWritten | Corrected

  /** The time-based cutoff: never when the budget is 0. */
  predicate OverBudget(rule: ClockRule, elapsedNs: Int64, budgetMs: int) {
    budgetMs != 0 &&
    match rule
    case AsWritten => WrapInt64(elapsedNs * 1000) > budgetMs
    case Corrected => elapsedNs > budgetMs * NanosPerMilli
  }

  /** The environment of the loop: the outcome of the k-th attempt (from 0)
      and the elapsed time since the first attempt, sampled after the k-th
      failure. */
  datatype Probe = Probe(attempt: nat -> Attempt, elapsedNs: nat -> Int64)

  /** How the loop ended and how many attempts it made. */
  datatype Run = Run(result: Result<Client, string>, attempts: Positive)

  function AsResult(a: Attempt): Result<Client, string> {
    match a
    case Connected(cl) => Success(cl)
    case Refused(e) => Failure(e)
  }

  /** The loop ends after the k-th attempt (from 0): it connected, the attempt
      count is spent, or the time budget is exceeded. */
  predicate Stops(p: RetryParams, rule: ClockRule, w: Probe, k: nat) {
    w.attempt(k).Connected? || k + 1 >= p.maxAttempts || OverBudget(rule, w.elapsedNs(k), p.budgetMs)
  }

  /** Declarative description of a run: attempts continue while no stop
      condition holds, the last attempt meets one, and the run reports the
      last attempt's client or error. */
  ghost predicate IsRun(p: RetryParams, rule: ClockRule, w: Probe, r: Run) {
    && r.attempts <= p.maxAttempts
    && (forall k: nat :: k < r.attempts - 1 ==> !Stops(p, rule, w, k))
    && Stops(p, rule, w, r.attempts - 1)
    && r.result == AsResult(w.attempt(r.attempts - 1))
  }

  /** The loop from its `attempt`-th attempt on (`attempt` counts from 1, as
      the Go counter does). */
  function RetryFrom(p: RetryParams, rule: ClockRule, w: Probe, attempt: Positive): (r: Run)
    requires attempt <= p.maxAttempts
    ensures attempt <= r.attempts <= p.maxAttempts
    ensures forall k: nat :: attempt - 1 <= k < r.attempts - 1 ==> !Stops(p, rule, w, k)
    ensures Stops(p, rule, w, r.attempts - 1)
    ensures r.result == AsResult(w.attempt(r.attempts - 1))
    decreases p.maxAttempts - attempt
  {
    match w.attempt(attempt - 1)
    case Connected(cl) => Run(Success(cl), attempt)
    case Refused(e) =>
      if attempt + 1 > p.maxAttempts || OverBudget(rule, w.elapsedNs(attempt - 1), p.budgetMs)
      then Run(Failure(e), attempt)
      else RetryFrom(p, rule, w, attempt + 1)
  }

  function Retry(p: RetryParams, rule: ClockRule, w: Probe): (r: Run)
    ensures IsRun(p, rule, w, r)
  {
    RetryFrom(p, rule, w, 1)
  }

  /** At most one run fits the declarative description. */
  lemma RunIsUnique(p: RetryParams, rule: ClockRule, w: Probe, r1: Run, r2: Run)
    requires IsRun(p, rule, w, r1) && IsRun(p, rule, w, r2)
    ensures r1 == r2
  {
  }

  /** `Retry` is exactly the run the declarative description admits. */
  lemma RetryIffRun(p: RetryParams, rule: ClockRule, w: Probe, r: Run)
    ensures IsRun(p, rule, w, r) <==> r == Retry(p, rule, w)
  {
  }

  /** One more pause adds one more pause length. */
  lemma SleepAccumulates(retries: nat, pause: nat)
    ensures (retries + 1) * pause == retries * pause + pause
  {
  }

  /** The loop of connect.go:126-145, with the pauses accumulated instead of
      taken. */
  method RetryLoop(p: RetryParams, rule: ClockRule, w: Probe) returns (r: Run, sleptMs: nat)
    ensures r == Retry(p, rule, w)
    ensures sleptMs == (r.attempts - 1) * SleepPerRetry(p)
  {
    var attempt: Positive := 1;
    sleptMs := 0;
    while true
      invariant attempt <= p.maxAttempts
      invariant RetryFrom(p, rule, w, attempt) == Retry(p, rule, w)
      invariant sleptMs == (attempt - 1) * SleepPerRetry(p)
      decreases p.maxAttempts - attempt
    {
      var outcome := w.attempt(attempt - 1);
      if outcome.Connected? {
        r := Run(Success(outcome.client), attempt);
        return;
      }
      var next := attempt + 1;
      if next > p.maxAttempts || OverBudget(rule, w.elapsedNs(attempt - 1), p.budgetMs) {
        r := Run(Failure(outcome.err), attempt);
        return;
      }
      assert RetryFrom(p, rule, w, next) == RetryFrom(p, rule, w, attempt);
      SleepAccumulates(attempt - 1, SleepPerRetry(p));
      if p.sleepMs > 0 {
        sleptMs := sleptMs + p.sleepMs;
      }
      attempt := next;
    }
  }

  /** A zero budget disables the time cutoff: a failed run has used every attempt. */
  lemma ZeroBudgetOnlyCountsAttempts(p: RetryParams, rule: ClockRule, w: Probe)
    requires p.budgetMs == 0
    ensures Retry(p, rule, w).result.Failure? ==> Retry(p, rule, w).attempts == p.maxAttempts
  {
  }

  /** Against a target that always refuses and with no time cutoff, the loop
      makes exactly the configured number of attempts and reports the last error. */
  lemma AlwaysRefusedUsesAllAttempts(p: RetryParams, rule: ClockRule, w: Probe)
    requires p.budgetMs == 0
    requires forall k: nat :: w.attempt(k).Refused?
    ensures Retry(p, rule, w).attempts == p.maxAttempts
    ensures Retry(p, rule, w).result == Failure(w.attempt(p.maxAttempts - 1).err)
  {
  }

  /** The first successful attempt ends the loop with its client. */
  lemma FirstSuccessWins(p: RetryParams, rule: ClockRule, w: Probe, k: nat)
    requires k < p.maxAttempts
    requires w.attempt(k).Connected?
    requires forall j: nat :: j < k ==> w.attempt(j).Refused? && !OverBudget(rule, w.elapsedNs(j), p.budgetMs)
    ensures Retry(p, rule, w) == Run(Success(w.attempt(k).client), k + 1)
  {
    var r := Retry(p, rule, w);
    assert Stops(p, rule, w, k) && Stops(p, rule, w, r.attempts - 1);
  }

  /** Under the corrected rule a failed run stops before its attempts are
      spent only once more than the budget, in milliseconds, has elapsed. */
  lemma CorrectedStopsOnlyPastBudget(p: RetryParams, w: Probe)
    requires Retry(p, Corrected, w).result.Failure?
    requires Retry(p, Corrected, w).attempts < p.maxAttempts
    ensures p.budgetMs != 0
    ensures w.elapsedNs(Retry(p, Corrected, w).attempts - 1) > p.budgetMs * NanosPerMilli
  {
  }

  /** Under the corrected rule, failures sampled within the budget never cut
      the loop short. */
  lemma CorrectedRetriesWithinBudget(p: RetryParams, w: Probe)
    requires forall k: nat :: w.attempt(k).Refused?
    requires forall k: nat :: w.elapsedNs(k) <= p.budgetMs * NanosPerMilli
    ensures Retry(p, Corrected, w).attempts == p.maxAttempts
  {
  }

  /** Under the rule as written, an elapsed time above budget/1000 nanoseconds
      already trips the cutoff, as long as the product does not wrap. */
  lemma AsWrittenTripsAfterBudgetOverThousandNs(elapsedNs: Int64, budgetMs: int)
    requires budgetMs != 0
    requires 0 <= elapsedNs <= 9_223_372_036_854_775
    requires elapsedNs * 1000 > budgetMs
    ensures OverBudget(AsWritten, elapsedNs, budgetMs)
  {
  }

  /** Three attempts allowed, the default 30-second budget, a target that
      refuses within a millisecond: the code as written gives up after the
      first attempt, the corrected rule makes all three. */
  lemma AsWrittenGivesUpAfterOneMillisecond()
    ensures Retry(RetryParams(3, DefaultBudgetMs, 10), AsWritten,
                  Probe(_ => Refused("connection refused"), _ => NanosPerMilli)).attempts == 1
    ensures Retry(RetryParams(3, DefaultBudgetMs, 10), Corrected,
                  Probe(_ => Refused("connection refused"), _ => NanosPerMilli)).attempts == 3
  {
  }
}
