/**
The operational policy of the durable scheduler: the range and coherence checks a
policy must pass, the truncating exponential backoff with its per-identity jitter, and
the retry grants derived from it.
*/
module SchedulerPolicy {
  import opened MachineInts

  const POLICY_VERSION: U32 := 1

  datatype Policy = Policy(
    schemaVersion: U32,
    recoveryBatchLimit: U16,
    materializationBatchLimit: U16,
    occurrenceSearchLimit: U32,
    tickIntervalMs: U64,
    errorBackoffMs: U64,
    minimumScheduleCadenceSeconds: U32,
    maxActiveJobs: U32,
    maxActiveJobsPerOwner: U32,
    maxPromptBytes: U32,
    maxResultBytes: U32,
    maxSummaryBytes: U32,
    runLeaseSeconds: U16,
    runHeartbeatIntervalMs: U64,
    runTimeoutSeconds: U32,
    runPrepareGraceMs: U64,
    runCancellationGraceMs: U64,
    runFinalizationGraceMs: U64,
    runRetryBaseSeconds: U32,
    runRetryMaxSeconds: U32,
    runDeadlineSeconds: U32,
    runMaxAttempts: U16,
    deliveryTickIntervalMs: U64,
    deliveryBatchLimit: U16,
    deliveryLeaseSeconds: U16,
    deliveryHeartbeatIntervalMs: U64,
    deliveryReadinessTimeoutSeconds: U16,
    deliverySendTimeoutSeconds: U16,
    deliveryFinalizationTimeoutSeconds: U16,
    deliveryMaxAttempts: U16,
    deliveryRetryBaseSeconds: U32,
    deliveryRetryMaxSeconds: U32,
    deliveryRetryAfterMaxSeconds: U32,
    deliveryDeadlineSeconds: U32,
    deliveryReadinessRetryBaseSeconds: U16,
    deliveryReadinessRetryMaxSeconds: U16
  )

  const DEFAULT_POLICY: Policy := Policy(
    schemaVersion := POLICY_VERSION,
    recoveryBatchLimit := 32,
    materializationBatchLimit := 32,
    occurrenceSearchLimit := 100_000,
    tickIntervalMs := 250,
    errorBackoffMs := 1_000,
    minimumScheduleCadenceSeconds := 60,
    maxActiveJobs := 1_000,
    maxActiveJobsPerOwner := 100,
    maxPromptBytes := 64 * 1024,
    maxResultBytes := 64 * 1024,
    maxSummaryBytes := 32 * 1024,
    runLeaseSeconds := 60,
    runHeartbeatIntervalMs := 15_000,
    runTimeoutSeconds := 1_800,
    runPrepareGraceMs := 5_000,
    runCancellationGraceMs := 5_000,
    runFinalizationGraceMs := 5_000,
    runRetryBaseSeconds := 30,
    runRetryMaxSeconds := 300,
    runDeadlineSeconds := 3_600,
    runMaxAttempts := 3,
    deliveryTickIntervalMs := 250,
    deliveryBatchLimit := 32,
    deliveryLeaseSeconds := 60,
    deliveryHeartbeatIntervalMs := 10_000,
    deliveryReadinessTimeoutSeconds := 10,
    deliverySendTimeoutSeconds := 30,
    deliveryFinalizationTimeoutSeconds := 5,
    deliveryMaxAttempts := 5,
    deliveryRetryBaseSeconds := 5,
    deliveryRetryMaxSeconds := 300,
    deliveryRetryAfterMaxSeconds := 3_600,
    deliveryDeadlineSeconds := 3_600,
    deliveryReadinessRetryBaseSeconds := 1,
    deliveryReadinessRetryMaxSeconds := 60
  )

  // ---------------------------------------------------------------- validation

  /** Acceptance, or the first field that violates the policy and why. */
  datatype Verdict = Accepted | Rejected(field: string, reason: string) {
    /** The first of two checks that fails. */
    function Then(next: Verdict): Verdict {
      if Rejected? then this else next
    }
  }

  function InRange(field: string, value: int, minimum: int, maximum: int): Verdict {
    if value < minimum || value > maximum
    then Rejected(field, "is outside the supported range")
    else Accepted
  }

  function Require(condition: bool, field: string, reason: string): Verdict {
    if condition then Accepted else Rejected(field, reason)
  }

  function HeartbeatFits(field: string, heartbeatMs: U64, leaseSeconds: U16): Verdict {
    Require(heartbeatMs != 0 && heartbeatMs * 3 < leaseSeconds * 1_000,
            field, "must be positive and strictly shorter than one third of its lease")
  }

  function ValidateLimits(p: Policy): Verdict {
    Require(p.schemaVersion == POLICY_VERSION, "schema_version",
            "must be the supported scheduler policy schema version")
    .Then(InRange("recovery_batch_limit", p.recoveryBatchLimit, 1, 1_024))
    .Then(InRange("materialization_batch_limit", p.materializationBatchLimit, 1, 1_024))
    .Then(InRange("occurrence_search_limit", p.occurrenceSearchLimit, 1, 1_000_000))
    .Then(InRange("tick_interval_ms", p.tickIntervalMs, 10, 60_000))
    .Then(InRange("error_backoff_ms", p.errorBackoffMs, 10, 300_000))
    .Then(InRange("minimum_schedule_cadence_seconds", p.minimumScheduleCadenceSeconds, 1, 86_400))
    .Then(InRange("max_active_jobs", p.maxActiveJobs, 1, 1_000_000))
    .Then(InRange("max_active_jobs_per_owner", p.maxActiveJobsPerOwner, 1, p.maxActiveJobs))
    .Then(InRange("max_prompt_bytes", p.maxPromptBytes, 1, 256 * 1024))
    .Then(InRange("max_result_bytes", p.maxResultBytes, 1, 256 * 1024))
    .Then(InRange("max_summary_bytes", p.maxSummaryBytes, 1, p.maxResultBytes))
  }

  function ValidateRunPolicy(p: Policy): Verdict {
    InRange("run_lease_seconds", p.runLeaseSeconds, 5, 3_600)
    .Then(HeartbeatFits("run_heartbeat_interval_ms", p.runHeartbeatIntervalMs, p.runLeaseSeconds))
    .Then(Require(p.tickIntervalMs < p.runLeaseSeconds * 1_000, "tick_interval_ms",
                  "must be shorter than run_lease_seconds"))
    .Then(InRange("run_timeout_seconds", p.runTimeoutSeconds, 1, 21_600))
    .Then(InRange("run_prepare_grace_ms", p.runPrepareGraceMs, 1, 60_000))
    .Then(InRange("run_cancellation_grace_ms", p.runCancellationGraceMs, 3, 60_000))
    .Then(InRange("run_finalization_grace_ms", p.runFinalizationGraceMs, 1, 60_000))
    .Then(InRange("run_retry_base_seconds", p.runRetryBaseSeconds, 1, 86_400))
    .Then(InRange("run_retry_max_seconds", p.runRetryMaxSeconds, p.runRetryBaseSeconds, 86_400))
    .Then(InRange("run_deadline_seconds", p.runDeadlineSeconds, 1, 604_800))
    .Then(InRange("run_max_attempts", p.runMaxAttempts, 1, 20))
    .Then(Require(p.runTimeoutSeconds * 1_000 + p.runPrepareGraceMs + p.runCancellationGraceMs
                  + p.runFinalizationGraceMs <= p.runDeadlineSeconds * 1_000,
                  "run_deadline_seconds",
                  "must cover run timeout and all completion grace intervals"))
  }

  function ValidateDeliveryPolicy(p: Policy): Verdict {
    InRange("delivery_tick_interval_ms", p.deliveryTickIntervalMs, 10, 60_000)
    .Then(InRange("delivery_batch_limit", p.deliveryBatchLimit, 1, 1_024))
    .Then(InRange("delivery_lease_seconds", p.deliveryLeaseSeconds, 5, 3_600))
    .Then(HeartbeatFits("delivery_heartbeat_interval_ms", p.deliveryHeartbeatIntervalMs,
                        p.deliveryLeaseSeconds))
    .Then(Require(p.deliveryTickIntervalMs < p.deliveryLeaseSeconds * 1_000,
                  "delivery_tick_interval_ms", "must be shorter than delivery_lease_seconds"))
    .Then(InRange("delivery_readiness_timeout_seconds", p.deliveryReadinessTimeoutSeconds, 1, 300))
    .Then(InRange("delivery_send_timeout_seconds", p.deliverySendTimeoutSeconds, 1, 3_600))
    .Then(InRange("delivery_finalization_timeout_seconds", p.deliveryFinalizationTimeoutSeconds,
                  1, 60))
    .Then(InRange("delivery_max_attempts", p.deliveryMaxAttempts, 1, 20))
    .Then(InRange("delivery_retry_base_seconds", p.deliveryRetryBaseSeconds, 1, 3_600))
    .Then(InRange("delivery_retry_max_seconds", p.deliveryRetryMaxSeconds,
                  p.deliveryRetryBaseSeconds, 86_400))
    .Then(InRange("delivery_retry_after_max_seconds", p.deliveryRetryAfterMaxSeconds, 1,
                  p.deliveryDeadlineSeconds))
    .Then(InRange("delivery_deadline_seconds", p.deliveryDeadlineSeconds, 1, 604_800))
    .Then(InRange("delivery_readiness_retry_base_seconds", p.deliveryReadinessRetryBaseSeconds, 1,
                  3_600))
    .Then(InRange("delivery_readiness_retry_max_seconds", p.deliveryReadinessRetryMaxSeconds,
                  p.deliveryReadinessRetryBaseSeconds, 3_600))
    .Then(Require(Min(p.deliverySendTimeoutSeconds
                  + p.deliveryFinalizationTimeoutSeconds, U32_MAX) <= p.deliveryDeadlineSeconds,
                  "delivery_deadline_seconds",
                  "must cover delivery send and finalization timeouts"))
  }

  function Validate(p: Policy): Verdict {
    ValidateLimits(p).Then(ValidateRunPolicy(p)).Then(ValidateDeliveryPolicy(p))
  }

  predicate Valid(p: Policy) {
    Validate(p).Accepted?
  }

  // ---------------------------------------------------------------- jittered backoff

  const FNV_OFFSET: bv64 := 0xcbf2_9ce4_8422_2325

  type Mixer = (bv64, bv8) -> bv64

  function FoldBytes(mix: Mixer, hash: bv64, bytes: seq<bv8>): bv64 {
    if bytes == [] then hash
    else mix(FoldBytes(mix, hash, bytes[..|bytes| - 1]), bytes[|bytes| - 1])
  }

  /** Bit-vector multiplication wraps at 64 bits. */
  function MixByte(hash: bv64, byte: bv8): bv64 {
    (hash ^ (byte as bv64)) * 0x0000_0100_0000_01b3
  }

  /** FNV-1a over the identity's bytes. */
  function StableHash(bytes: seq<bv8>): bv64 {
    FoldBytes(MixByte, FNV_OFFSET, bytes)
  }

  /** `u32::checked_shl`: only the shift count is checked, bits shifted out are lost. */
  function CheckedShl32(x: U32, count: nat): Option<U32> {
    if count < 32 then Some(x * Pow2(count) % TWO_TO_THE_32) else None
  }

  function Exponent(attempt: I64): nat {
    Clamp(SaturatingSub(attempt, 1), 0, 31)
  }

  /** The exponential part of a delay, before jitter. */
  function ExponentialTerm(base: U32, cap: U32, attempt: I64): U32 {
    match CheckedShl32(base, Exponent(attempt))
    case Some(shifted) => Min(shifted, cap)
    case None => cap
  }

  function JitterBound(exponential: U32): (bound: U32)
    ensures bound >= 1
  {
    Max(exponential / 4, 1)
  }

  function Jitter(identity: seq<bv8>, exponential: U32): U32 {
    StableHash(identity) as int % JitterBound(exponential)
  }

  function BoundedExponentialDelay(base: U32, cap: U32, identity: seq<bv8>, attempt: I64): U32 {
    var exponential := ExponentialTerm(base, cap, attempt);
    Min(Min(exponential + Jitter(identity, exponential), U32_MAX), cap)
  }

  // ---------------------------------------------------------------- retry grants

  function RunRetryDelay(p: Policy, runId: seq<bv8>, attempt: I64): U32 {
    BoundedExponentialDelay(p.runRetryBaseSeconds, p.runRetryMaxSeconds, runId, attempt)
  }

  function DeliveryRetryDelay(p: Policy, deliveryId: seq<bv8>, attempt: I64): U32 {
    BoundedExponentialDelay(p.deliveryRetryBaseSeconds, p.deliveryRetryMaxSeconds,
                            deliveryId, attempt)
  }

  function RunDeadlineAt(p: Policy, scheduledFor: I64): Option<I64> {
    CheckedAdd(scheduledFor, p.runDeadlineSeconds)
  }

  function DeliveryDeadlineAt(p: Policy, payloadCreatedAt: I64): Option<I64> {
    CheckedAdd(payloadCreatedAt, p.deliveryDeadlineSeconds)
  }

  predicate CanRetry(attempt: I64, maxAttempts: U16, nextAt: I64, deadline: I64) {
    attempt < maxAttempts && nextAt < deadline
  }

  /** A computed retry time is granted only inside the attempt budget and the deadline. */
  function Grant(next: Option<I64>, attempt: I64, maxAttempts: U16, deadline: Option<I64>)
    : Option<I64>
  {
    if next.Some? && deadline.Some? && CanRetry(attempt, maxAttempts, next.value, deadline.value)
    then next
    else None
  }

  function RunRetryAt(p: Policy, runId: seq<bv8>, attempt: I64, scheduledFor: I64, now: I64)
    : Option<I64>
  {
    Grant(CheckedAdd(now, RunRetryDelay(p, runId, attempt)),
          attempt, p.runMaxAttempts, RunDeadlineAt(p, scheduledFor))
  }

  /**
  A provider's Retry-After hint, clamped to at least one second and at most the cap. Rust's
  clamp panics for a cap of zero, which no accepted policy has; here it then yields one.
  */
  function RetryAfterSeconds(p: Policy, hint: Option<U64>): I64 {
    match hint
    case None => 0
    case Some(seconds) =>
      Clamp(if seconds <= I64_MAX then seconds else p.deliveryRetryAfterMaxSeconds,
            1, p.deliveryRetryAfterMaxSeconds)
  }

  function DeliveryRetryAt(p: Policy, deliveryId: seq<bv8>, attempt: I64, payloadCreatedAt: I64,
                           now: I64, retryAfter: Option<U64>): Option<I64>
  {
    var delay := Max(DeliveryRetryDelay(p, deliveryId, attempt), RetryAfterSeconds(p, retryAfter));
    Grant(CheckedAdd(now, delay),
          attempt, p.deliveryMaxAttempts, DeliveryDeadlineAt(p, payloadCreatedAt))
  }

  // ---------------------------------------------------------------- what validation implies

  /** The delivery bounds every accepted policy meets. */
  predicate DeliveryBounds(p: Policy) {
    && 5 <= p.deliveryLeaseSeconds <= 3_600
    && 1 <= p.deliveryMaxAttempts <= 20
    && 1 <= p.deliveryRetryBaseSeconds <= 3_600
    && p.deliveryRetryBaseSeconds <= p.deliveryRetryMaxSeconds <= 86_400
    && 1 <= p.deliveryRetryAfterMaxSeconds <= p.deliveryDeadlineSeconds <= 604_800
    && 1 <= p.deliveryReadinessRetryBaseSeconds
         <= p.deliveryReadinessRetryMaxSeconds <= 3_600
  }

  predicate RunBounds(p: Policy) {
    && 1 <= p.runRetryBaseSeconds <= p.runRetryMaxSeconds <= 86_400
    && 1 <= p.runMaxAttempts <= 20
  }

  lemma RunValidationImpliesBounds(p: Policy)
    requires ValidateRunPolicy(p).Accepted?
    ensures RunBounds(p)
  {
  }

  lemma DeliveryValidationImpliesBounds(p: Policy)
    requires ValidateDeliveryPolicy(p).Accepted?
    ensures DeliveryBounds(p)
  {
  }

  lemma ValidationSplits(p: Policy)
    requires Valid(p)
    ensures ValidateRunPolicy(p).Accepted? && ValidateDeliveryPolicy(p).Accepted?
  {
  }

  lemma ValidImpliesBounds(p: Policy)
    requires Valid(p)
    ensures RunBounds(p) && DeliveryBounds(p)
  {
    ValidationSplits(p);
    RunValidationImpliesBounds(p);
    DeliveryValidationImpliesBounds(p);
  }
}
