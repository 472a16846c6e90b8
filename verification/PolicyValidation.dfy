/**
Exactly which scheduler policies are accepted, as conditions on the quantities themselves.
*/
module PolicyValidation {
  import opened MachineInts
  import opened SchedulerPolicy

  /** Batches, ticks, job counts and sizes; no owner may hold more than all jobs together. */
  predicate SoundLimits(p: Policy) {
    && p.schemaVersion == 1
    && 1 <= p.recoveryBatchLimit <= 1_024 && 1 <= p.materializationBatchLimit <= 1_024
    && 1 <= p.occurrenceSearchLimit <= 1_000_000
    && 10 <= p.tickIntervalMs <= 60_000 && 10 <= p.errorBackoffMs <= 300_000
    && 1 <= p.minimumScheduleCadenceSeconds <= 86_400
    && 1 <= p.maxActiveJobsPerOwner <= p.maxActiveJobs <= 1_000_000
    && 1 <= p.maxPromptBytes <= 262_144
    && 1 <= p.maxSummaryBytes <= p.maxResultBytes <= 262_144
  }

  /** More than three heartbeats fit into a run's lease, and a whole run into its deadline. */
  predicate SoundRuns(p: Policy) {
    && 5 <= p.runLeaseSeconds <= 3_600
    && 0 < 3 * p.runHeartbeatIntervalMs < 1_000 * p.runLeaseSeconds
    && p.tickIntervalMs < 1_000 * p.runLeaseSeconds
    && 1 <= p.runTimeoutSeconds <= 21_600
    && 1 <= p.runPrepareGraceMs <= 60_000 && 3 <= p.runCancellationGraceMs <= 60_000
    && 1 <= p.runFinalizationGraceMs <= 60_000
    && 1 <= p.runRetryBaseSeconds <= p.runRetryMaxSeconds <= 86_400
    && 1 <= p.runMaxAttempts <= 20
    && p.runDeadlineSeconds <= 604_800
    && 1_000 * p.runTimeoutSeconds + p.runPrepareGraceMs + p.runCancellationGraceMs
       + p.runFinalizationGraceMs <= 1_000 * p.runDeadlineSeconds
  }

  /** The same for deliveries: a send and its completion fit into the deadline. */
  predicate SoundDeliveries(p: Policy) {
    && 10 <= p.deliveryTickIntervalMs <= 60_000
    && 1 <= p.deliveryBatchLimit <= 1_024
    && 5 <= p.deliveryLeaseSeconds <= 3_600
    && 0 < 3 * p.deliveryHeartbeatIntervalMs < 1_000 * p.deliveryLeaseSeconds
    && p.deliveryTickIntervalMs < 1_000 * p.deliveryLeaseSeconds
    && 1 <= p.deliveryReadinessTimeoutSeconds <= 300
    && 1 <= p.deliverySendTimeoutSeconds <= 3_600
    && 1 <= p.deliveryFinalizationTimeoutSeconds <= 60
    && 1 <= p.deliveryMaxAttempts <= 20
    && 1 <= p.deliveryRetryBaseSeconds <= 3_600
    && p.deliveryRetryBaseSeconds <= p.deliveryRetryMaxSeconds <= 86_400
    && 1 <= p.deliveryRetryAfterMaxSeconds <= p.deliveryDeadlineSeconds <= 604_800
    && 1 <= p.deliveryReadinessRetryBaseSeconds <= p.deliveryReadinessRetryMaxSeconds <= 3_600
    && p.deliverySendTimeoutSeconds + p.deliveryFinalizationTimeoutSeconds
       <= p.deliveryDeadlineSeconds
  }

  lemma LimitsExactly(p: Policy)
    ensures ValidateLimits(p).Accepted? <==> SoundLimits(p)
  {
  }

  lemma RunsExactly(p: Policy)
    ensures ValidateRunPolicy(p).Accepted? <==> SoundRuns(p)
  {
  }

  lemma DeliveriesExactly(p: Policy)
    ensures ValidateDeliveryPolicy(p).Accepted? <==> SoundDeliveries(p)
  {
  }

  lemma ThenAccepts(a: Verdict, b: Verdict)
    ensures a.Then(b).Accepted? <==> a.Accepted? && b.Accepted?
  {
  }

  /** A policy is accepted exactly when its limits, its runs and its deliveries are sound. */
  lemma AcceptedExactly(p: Policy)
    ensures Valid(p) <==> SoundLimits(p) && SoundRuns(p) && SoundDeliveries(p)
  {
    var a, b, c := ValidateLimits(p), ValidateRunPolicy(p), ValidateDeliveryPolicy(p);
    ThenAccepts(a, b);
    ThenAccepts(a.Then(b), c);
    LimitsExactly(p);
    RunsExactly(p);
    DeliveriesExactly(p);
  }

  /** The policy the program starts with is one of them. */
  lemma DefaultIsAccepted()
    ensures Valid(DEFAULT_POLICY)
  {
    AcceptedExactly(DEFAULT_POLICY);
  }
}
