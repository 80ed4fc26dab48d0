/** Purpose tables, public ids and configured windows of managed images. */
module ImagePolicy {
  import opened Prelude

  type UploadId = string

  datatype Purpose = AssetImage | EmployeePhoto

  datatype Delivery = PublicDelivery | AuthenticatedDelivery

  const POLICY_REVISION := "image-normalization-v1"
  const MIN_SETTLEMENT_MS := 60_000
  const PROVIDER_REQUESTS_PER_OBJECT := 9

  function DeliveryFor(purpose: Purpose): Delivery {
    if purpose.AssetImage? then PublicDelivery else AuthenticatedDelivery
  }

  function MaxEdge(purpose: Purpose): int {
    if purpose.AssetImage? then 1600 else 512
  }

  function PublicIdFor(purpose: Purpose, id: UploadId): string {
    (if purpose.AssetImage? then "hams-asset-image-" else "hams-employee-photo-") + id
  }

  /** No two allocated uploads can share a public id, whatever their purposes. */
  lemma PublicIdIsInjective(p: Purpose, a: UploadId, q: Purpose, b: UploadId)
    ensures PublicIdFor(p, a) == PublicIdFor(q, b) <==> p == q && a == b
  {
    if PublicIdFor(p, a) == PublicIdFor(q, b) {
      assert PublicIdFor(p, a)[5] == PublicIdFor(q, b)[5];
      var prefix := if p.AssetImage? then "hams-asset-image-" else "hams-employee-photo-";
      assert a == PublicIdFor(p, a)[|prefix|..];
      assert b == PublicIdFor(q, b)[|prefix|..];
    }
  }

  /**
   * What the image services read from the environment. `None` stands for an unset or blank
   * variable; a value that is not a whole number is modelled by any number out of range.
   */
  datatype Environment = Environment(
    signatureWindowSeconds: Option<int>,
    intentWindowSeconds: Option<int>,
    attachmentWindowSeconds: Option<int>,
    settlementHorizonSeconds: Option<int>,
    completionAttempts: Option<int>,
    providerRequestBudget: Option<int>,
    leaseSeconds: Option<int>,
    providerTimeoutMs: Option<int>,
    maxBackoffSeconds: Option<int>,
    batchSize: Option<int>)

  datatype Config = Config(
    signatureMs: int,
    intentMs: int,
    attachmentMs: int,
    settlementMs: int,
    attemptLimit: int,
    requestBudget: int,
    leaseMs: int,
    maxBackoffMs: int,
    batchSize: int)

  datatype ConfigError = OutOfRange | HorizonTooShort | BudgetTooSmall | LeaseTooShort

  function ConfiguredPositiveInteger(raw: Option<int>, fallback: int, maximum: int): Result<int, ConfigError> {
    match raw
    case None => Ok(fallback)
    case Some(n) => if n < 1 || n > maximum then Err(OutOfRange) else Ok(n)
  }

  function LoadConfig(env: Environment): Result<Config, ConfigError> {
    var signature := ConfiguredPositiveInteger(env.signatureWindowSeconds, 3600, 3600);
    var intent := ConfiguredPositiveInteger(env.intentWindowSeconds, 3600, 3600);
    var attachment := ConfiguredPositiveInteger(env.attachmentWindowSeconds, 3600, 3600);
    var horizon := ConfiguredPositiveInteger(env.settlementHorizonSeconds, 600, 3600);
    var attempts := ConfiguredPositiveInteger(env.completionAttempts, 10, 100);
    var budget := ConfiguredPositiveInteger(env.providerRequestBudget, 18, 90);
    var lease := ConfiguredPositiveInteger(env.leaseSeconds, 120, 3600);
    var timeout := ConfiguredPositiveInteger(env.providerTimeoutMs, 5000, 30000);
    var backoff := ConfiguredPositiveInteger(env.maxBackoffSeconds, 86400, 604800);
    var batch := ConfiguredPositiveInteger(env.batchSize, 20, 500);
    if signature.Err? || intent.Err? || attachment.Err? || horizon.Err? || attempts.Err?
       || budget.Err? || lease.Err? || timeout.Err? || backoff.Err? || batch.Err? then Err(OutOfRange)
    else if horizon.value * 1000 < MIN_SETTLEMENT_MS then Err(HorizonTooShort)
    else if budget.value < PROVIDER_REQUESTS_PER_OBJECT then Err(BudgetTooSmall)
    else if lease.value * 1000 < PROVIDER_REQUESTS_PER_OBJECT * timeout.value + 5000 then Err(LeaseTooShort)
    else Ok(Config(Min(signature.value * 1000, 3_600_000), intent.value * 1000, attachment.value * 1000,
                   horizon.value * 1000, attempts.value, budget.value, lease.value * 1000,
                   backoff.value * 1000, batch.value))
  }

  predicate ValidConfig(c: Config) {
    && 1000 <= c.signatureMs <= 3_600_000
    && 1000 <= c.intentMs <= 3_600_000
    && 1000 <= c.attachmentMs <= 3_600_000
    && MIN_SETTLEMENT_MS <= c.settlementMs <= 3_600_000
    && 1 <= c.attemptLimit <= 100
    && PROVIDER_REQUESTS_PER_OBJECT <= c.requestBudget
    && 1000 <= c.leaseMs
    && 1000 <= c.maxBackoffMs
    && 1 <= c.batchSize <= 500
  }

  /** Every configuration the services accept keeps the windows and the settlement horizon in range. */
  lemma LoadedConfigIsValid(env: Environment)
    ensures LoadConfig(env).Ok? ==> ValidConfig(LoadConfig(env).value)
  {
  }

  /** An unset variable, or a whole number from 1 to `maximum`. */
  predicate Allowed(raw: Option<int>, maximum: int) {
    raw.Some? ==> 1 <= raw.value <= maximum
  }

  function Or(raw: Option<int>, fallback: int): int {
    if raw.Some? then raw.value else fallback
  }

  /**
   * Exactly which environments are accepted: every variable in its range, a settlement horizon of a
   * minute or more, a budget for one object's nine requests, and a lease that outlasts them at the
   * provider's time-out with five seconds to spare; and what is then configured.
   */
  lemma AcceptedEnvironments(env: Environment)
    ensures LoadConfig(env).Ok? <==>
              && Allowed(env.signatureWindowSeconds, 3600) && Allowed(env.intentWindowSeconds, 3600)
              && Allowed(env.attachmentWindowSeconds, 3600) && Allowed(env.settlementHorizonSeconds, 3600)
              && Allowed(env.completionAttempts, 100) && Allowed(env.providerRequestBudget, 90)
              && Allowed(env.leaseSeconds, 3600) && Allowed(env.providerTimeoutMs, 30_000)
              && Allowed(env.maxBackoffSeconds, 604_800) && Allowed(env.batchSize, 500)
              && 60 <= Or(env.settlementHorizonSeconds, 600) && 9 <= Or(env.providerRequestBudget, 18)
              && 9 * Or(env.providerTimeoutMs, 5000) + 5000 <= 1000 * Or(env.leaseSeconds, 120)
    ensures LoadConfig(env).Ok? ==>
              LoadConfig(env).value ==
                Config(1000 * Or(env.signatureWindowSeconds, 3600), 1000 * Or(env.intentWindowSeconds, 3600),
                       1000 * Or(env.attachmentWindowSeconds, 3600), 1000 * Or(env.settlementHorizonSeconds, 600),
                       Or(env.completionAttempts, 10), Or(env.providerRequestBudget, 18), 1000 * Or(env.leaseSeconds, 120),
                       1000 * Or(env.maxBackoffSeconds, 86_400), Or(env.batchSize, 20))
  {
  }

  /**
   * Back-off before a failed deletion is retried: `1 s * 2^(n-1)` capped, scaled by a jitter of
   * 0.800 to 1.200 (`jitter` thousandths above 800) and rounded to the nearest millisecond.
   */
  function RetryDelay(nextAttempt: nat, jitter: nat, maxBackoffMs: int): (delay: int)
    requires nextAttempt >= 1 && jitter <= 400 && maxBackoffMs >= 1000
    ensures 800 <= delay <= maxBackoffMs
  {
    var base := Min(1000 * Pow2(Min(nextAttempt - 1, 20)), maxBackoffMs);
    PowAtLeastOne(Min(nextAttempt - 1, 20));
    assert base >= 1000;
    assert base * (800 + jitter) >= 1000 * 800 by { MulMonotone(1000, base, 800, 800 + jitter); }
    Min(maxBackoffMs, (base * (800 + jitter) + 500) / 1000)
  }

  /**
   * A first retry waits a second at mid-jitter; each later one twice as long as the one before, up to
   * the longest back-off or twenty doublings; and jitter scales the wait from 0.8 to 1.2, to the nearest
   * millisecond.
   */
  lemma BackoffDoubles(n: nat, jitter: nat, maxBackoffMs: int)
    requires n >= 1 && jitter <= 400 && maxBackoffMs >= 1000
    ensures RetryDelay(1, 200, maxBackoffMs) == 1000
    ensures var wait, next := RetryDelay(n, 200, maxBackoffMs), RetryDelay(n + 1, 200, maxBackoffMs);
            && (n <= 20 ==> next == if 2 * wait <= maxBackoffMs then 2 * wait else maxBackoffMs)
            && (n >= 21 ==> next == wait)
            && (var scaled := (wait * (800 + jitter) + 500) / 1000;
                RetryDelay(n, jitter, maxBackoffMs) == if scaled <= maxBackoffMs then scaled else maxBackoffMs)
  {
    var base := Min(1000 * Pow2(Min(n - 1, 20)), maxBackoffMs);
    assert (base * (800 + 200) + 500) / 1000 == base;
    var more := Min(1000 * Pow2(Min(n, 20)), maxBackoffMs);
    assert (more * (800 + 200) + 500) / 1000 == more;
    if n <= 20 { assert Pow2(n) == 2 * Pow2(n - 1); }
    assert Pow2(0) == 1;
  }

  function Pow2(n: nat): nat { if n == 0 then 1 else 2 * Pow2(n - 1) }

  lemma PowAtLeastOne(n: nat)
    ensures Pow2(n) >= 1
  {
  }

  lemma MulMonotone(a: nat, b: nat, c: nat, d: nat)
    requires a <= b && c <= d
    ensures a * c <= b * d
  {
  }
}
