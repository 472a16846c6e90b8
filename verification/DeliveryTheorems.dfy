/** The promises of the delivery worker over whole runs, read off its lawful histories. */
module DeliveryTheorems {
  import opened MachineInts
  import opened SchedulerPolicy
  import opened DeliveryState
  import opened DeliveryWorker
  import opened DeliverySafety
  import RetryChain
  import opened RetryDesign

  function HistoryOf(events: seq<Event>): History {
    Run(events).1
  }

  /** The events lead to a lawful history. */
  lemma RunsAreLawful(events: seq<Event>)
    ensures Lawful(HistoryOf(events))
  {
    RunKeeps(events);
  }

  predicate NoWrite(completion: Completion) {
    completion.NoWriteRetryable? || completion.NoWriteTerminal?
  }

  predicate NoWriteOutcome(outcome: ProviderOutcome) {
    outcome.ConfirmedNoWriteRetryable? || outcome.ConfirmedNoWriteTerminal?
  }

  /**
  A no-write completion is committed only for a claim whose send was never polled, or whose
  provider answered that it wrote nothing. A send that was polled and never answered can only
  be committed as ambiguous, and only a confirmed success is committed as delivered.
  */
  lemma NoWriteSoundness(events: seq<Event>, past: History, decision: Decision, now: I64)
    requires Occurs(HistoryOf(events), past, Completed(decision, now))
    ensures OpenClaim(past).Some?
    ensures
      var completion := CompletionOf(OpenClaim(past).value, decision, now);
      var polled := exists at :: SinceClaim(past, SendStarted(at));
      var answered := exists o :: SinceClaim(past, SendAnswered(o));
      && (NoWrite(completion) && polled ==>
            exists o :: SinceClaim(past, SendAnswered(o)) && NoWriteOutcome(o))
      && (polled && !answered ==>
            || completion == Ambiguous("cancelled_after_dispatch")
            || completion == Ambiguous("provider_timeout"))
      && (completion.Ambiguous? ==> polled)
      && (completion.Delivered? ==>
            SinceClaim(past, SendAnswered(ConfirmedSuccess(completion.receipt))))
  {
    RunsAreLawful(events);
    OccurrencesAreAllowed(HistoryOf(events), past, Completed(decision, now));
    WatchIsHistory(past);
    assert Truthful(Watch(past), decision);
  }

  /** What the design has the store told for a decision about a claim. */
  predicate CommittedAsDesigned(c: Claim, decision: Decision, now: I64, completion: Completion) {
    match decision
    case Release =>
      completion == Retried("cancelled_before_dispatch", DesignRetryOf(c, now, None))
    case DeadlineExceeded => completion == NoWriteTerminal("delivery_deadline_exceeded")
    case Report(ConfirmedSuccess(receipt)) => completion == Delivered(receipt)
    case Report(ConfirmedNoWriteRetryable(hint, kind)) =>
      completion ==
      Retried(kind, if c.policyVersion == 1 then DesignRetryOf(c, now, hint) else None)
    case Report(ConfirmedNoWriteTerminal(kind)) => completion == NoWriteTerminal(kind)
    case Report(AmbiguousPostWrite(kind)) => completion == Ambiguous(kind)
  }

  function DesignRetryOf(c: Claim, now: int, hint: Option<U64>): Option<int> {
    DesignRetry(c.policy, c.deliveryId, c.attempt, c.createdAt, now, hint)
  }

  /** A failure without a write is retried at the granted time, or given up as exhausted. */
  function Retried(kind: string, at: Option<int>): Completion {
    if at.Some? && I64_MIN <= at.value <= I64_MAX then NoWriteRetryable(kind, at.value)
    else NoWriteTerminal("delivery_retry_exhausted")
  }

  lemma CompletionIsDesigned(c: Claim, decision: Decision, now: I64)
    requires DeliveryBounds(c.policy)
    ensures CommittedAsDesigned(c, decision, now, CompletionOf(c, decision, now))
  {
    match decision
    case Release =>
      BoundedDeliveryRetryExactly(c.policy, c.deliveryId, c.attempt, c.createdAt, now, None);
    case Report(ConfirmedNoWriteRetryable(hint, _)) =>
      BoundedDeliveryRetryExactly(c.policy, c.deliveryId, c.attempt, c.createdAt, now, hint);
    case _ =>
  }

  /**
  Every completion in every run tells the store what the design says. In particular a retryable
  failure, and a claim released unsent, is retried after the larger of the backoff and the clamped
  hint exactly when the payload's version, the attempt budget and the deadline leave room, and is
  given up as exhausted otherwise.
  */
  lemma CompletionsAreDesigned(events: seq<Event>, past: History, decision: Decision, now: I64)
    requires Occurs(HistoryOf(events), past, Completed(decision, now))
    ensures OpenClaim(past).Some?
    ensures var c := OpenClaim(past).value;
            Valid(c.policy) ==>
              CommittedAsDesigned(c, decision, now, CompletionOf(c, decision, now))
  {
    CompletionsAreSingleAndFenced(events, past, decision, now);
    var c := OpenClaim(past).value;
    if Valid(c.policy) {
      ValidImpliesBounds(c.policy);
      CompletionIsDesigned(c, decision, now);
    }
  }

  /** A claim is given up for its deadline only once that has passed, or cannot be represented. */
  lemma DeadlineFailuresAreLate(events: seq<Event>, past: History, at: I64)
    requires Occurs(HistoryOf(events), past, Completed(DeadlineExceeded, at))
    ensures OpenClaim(past).Some?
    ensures var deadline := OpenClaim(past).value.createdAt
                            + OpenClaim(past).value.policy.deliveryDeadlineSeconds;
            deadline <= at || deadline > I64_MAX
    ensures forall sent :: !SinceClaim(past, SendStarted(sent))
  {
    RunsAreLawful(events);
    OccurrencesAreAllowed(HistoryOf(events), past, Completed(DeadlineExceeded, at));
    WatchIsHistory(past);
  }

  /** Claims do not overlap, and each uses a Ready verdict about its own authority snapshot. */
  lemma ClaimsFollowReadiness(events: seq<Event>, past: History, c: Claim, at: I64)
    requires Occurs(HistoryOf(events), past, Claimed(c, at))
    ensures OpenClaim(past).None?
    ensures UnusedProbe(past) == Some((c.authority, Ready))
  {
    RunsAreLawful(events);
    OccurrencesAreAllowed(HistoryOf(events), past, Claimed(c, at));
    WatchIsHistory(past);
  }

  /** A claim is sent at most once, after a check that its deadline is still ahead. */
  lemma SendsAreSingleAndInTime(events: seq<Event>, past: History, decidedAt: I64)
    requires Occurs(HistoryOf(events), past, SendStarted(decidedAt))
    ensures OpenClaim(past).Some?
    ensures decidedAt < OpenClaim(past).value.createdAt
                        + OpenClaim(past).value.policy.deliveryDeadlineSeconds
    ensures forall at :: !SinceClaim(past, SendStarted(at))
  {
    RunsAreLawful(events);
    OccurrencesAreAllowed(HistoryOf(events), past, SendStarted(decidedAt));
    WatchIsHistory(past);
  }

  /**
  A claim is completed at most once, only after its heartbeat was joined without error, and
  never after the store reported its lease lost.
  */
  lemma CompletionsAreSingleAndFenced(events: seq<Event>, past: History, decision: Decision,
                                      now: I64)
    requires Occurs(HistoryOf(events), past, Completed(decision, now))
    ensures OpenClaim(past).Some?
    ensures SinceClaim(past, HeartbeatJoined)
    ensures !SinceClaim(past, LeaseAnswered(Refused(LostAuthority)))
    ensures forall d, at :: !SinceClaim(past, Completed(d, at))
    ensures decision.Report? ==>
              exists at, expiresAt :: SinceClaim(past, LeaseRenewed(at, expiresAt, true))
  {
    RunsAreLawful(events);
    OccurrencesAreAllowed(HistoryOf(events), past, Completed(decision, now));
    WatchIsHistory(past);
  }

  // ---------------------------------------------------------------- lease times

  lemma {:induction false} ExpiriesAccumulate(h: History, at: I64, expiresAt: int, final: bool)
    requires Lawful(h) && SinceClaim(h, LeaseRenewed(at, expiresAt, final))
    ensures Watch(h).expiry.Some? && expiresAt <= Watch(h).expiry.value
    ensures final ==> Watch(h).renewed
  {
    if h.effect != LeaseRenewed(at, expiresAt, final) {
      ExpiriesAccumulate(h.past, at, expiresAt, final);
    }
  }

  /**
  Whatever the clock does, a claim's periodic lease expiries never shrink, and its single
  finalization expiry is strictly later than all of them.
  */
  lemma LeaseTimesMoveForward(events: seq<Event>, past: History, at: I64, expiresAt: int,
                              final: bool, earlierAt: I64, earlierExpiry: int, earlierFinal: bool)
    requires Occurs(HistoryOf(events), past, LeaseRenewed(at, expiresAt, final))
    requires SinceClaim(past, LeaseRenewed(earlierAt, earlierExpiry, earlierFinal))
    ensures !earlierFinal
    ensures if final then earlierExpiry < expiresAt else earlierExpiry <= expiresAt
  {
    RunsAreLawful(events);
    OccurrencesAreAllowed(HistoryOf(events), past, LeaseRenewed(at, expiresAt, final));
    ExpiriesAccumulate(past, earlierAt, earlierExpiry, earlierFinal);
  }

  /** Every renewal asks for a whole lease from the time it read; the last for a second more. */
  lemma LeasesAreFullLength(events: seq<Event>, past: History, at: I64, expiresAt: int,
                            final: bool)
    requires Occurs(HistoryOf(events), past, LeaseRenewed(at, expiresAt, final))
    ensures OpenClaim(past).Some?
    ensures expiresAt == at + OpenClaim(past).value.policy.deliveryLeaseSeconds
                         + (if final then 1 else 0)
  {
    RunsAreLawful(events);
    OccurrencesAreAllowed(HistoryOf(events), past, LeaseRenewed(at, expiresAt, final));
    WatchIsHistory(past);
  }

  // ---------------------------------------------------------------- retries over a whole run

  function HintOf(decision: Decision): Option<U64> {
    match decision
    case Report(ConfirmedNoWriteRetryable(retryAfter, _)) => retryAfter
    case _ => None
  }

  /** The retry grants a history holds for one delivery, oldest first. */
  function Grants(h: History, deliveryId: seq<bv8>): seq<RetryChain.GrantRecord> {
    match h
    case Empty => []
    case Then(past, Completed(decision, now)) => Grants(past, deliveryId)
        + GrantAt(OpenClaim(past), deliveryId, decision, now)
    case Then(past, _) => Grants(past, deliveryId)
  }

  /** The grant in one completion, if it is a retry of the given delivery. */
  function GrantAt(open: Option<Claim>, deliveryId: seq<bv8>, decision: Decision, now: I64)
    : seq<RetryChain.GrantRecord>
  {
    if open.None? || open.value.deliveryId != deliveryId then []
    else
      match CompletionOf(open.value, decision, now)
      case NoWriteRetryable(_, at) =>
        [RetryChain.GrantRecord(open.value.attempt, now, HintOf(decision), at)]
      case _ => []
  }

  /** What the store promises about one new claim. */
  predicate ClaimContract(c: Claim, at: I64, deliveryId: seq<bv8>, p: Policy, createdAt: I64,
                          grants: seq<RetryChain.GrantRecord>) {
    c.deliveryId == deliveryId ==>
      && c.policy == p && c.createdAt == createdAt && c.attempt >= 1 && at >= createdAt
      && (grants != [] ==> grants[|grants| - 1].attempt < c.attempt
                           && grants[|grants| - 1].at <= at)
  }

  /**
  What the store promises about the claims it hands out for one delivery: a fixed payload and
  policy, positive attempts that grow, and no claim before the time the last retry allowed.
  */
  predicate StoreContract(h: History, deliveryId: seq<bv8>, p: Policy, createdAt: I64) {
    match h
    case Empty => true
    case Then(past, Claimed(c, at)) =>
      && StoreContract(past, deliveryId, p, createdAt)
      && ClaimContract(c, at, deliveryId, p, createdAt, Grants(past, deliveryId))
    case Then(past, _) => StoreContract(past, deliveryId, p, createdAt)
  }

  /** The open claim of the delivery continues the grants made so far. */
  predicate Continues(m: Monitor, deliveryId: seq<bv8>, p: Policy, createdAt: I64,
                      grants: seq<RetryChain.GrantRecord>) {
    m.open.Some? && m.open.value.deliveryId == deliveryId && !m.completed ==>
      && m.open.value.policy == p && m.open.value.createdAt == createdAt
      && m.open.value.attempt >= 1 && m.claimedAt >= createdAt
      && (grants != [] ==> grants[|grants| - 1].attempt < m.open.value.attempt
                           && grants[|grants| - 1].at <= m.claimedAt)
  }

  lemma CompletionGrant(c: Claim, decision: Decision, now: I64)
    requires CompletionOf(c, decision, now).NoWriteRetryable?
    ensures !decision.DeadlineExceeded?
    ensures RetryChain.Granted(c.policy, c.deliveryId, c.createdAt,
              RetryChain.GrantRecord(c.attempt, now, HintOf(decision),
                                     CompletionOf(c, decision, now).nextAttemptAt))
  {
  }

  /** A completion adds at most one grant, and it continues the chain. */
  lemma CompletionContinuesChain(m: Monitor, deliveryId: seq<bv8>, p: Policy, createdAt: I64,
                                 grants: seq<RetryChain.GrantRecord>, decision: Decision, now: I64)
    requires m.open.Some? && !m.completed && (decision.DeadlineExceeded? || m.claimedAt <= now)
    requires RetryChain.Chain(RetryChain.GrantsOf(p, deliveryId, createdAt), createdAt, grants)
    requires Continues(m, deliveryId, p, createdAt, grants)
    ensures RetryChain.Chain(RetryChain.GrantsOf(p, deliveryId, createdAt), createdAt,
                             grants + GrantAt(m.open, deliveryId, decision, now))
  {
    var c := m.open.value;
    if c.deliveryId == deliveryId && CompletionOf(c, decision, now).NoWriteRetryable? {
      CompletionGrant(c, decision, now);
      RetryChain.ChainExtends(RetryChain.GrantsOf(p, deliveryId, createdAt), createdAt, grants,
                              GrantAt(m.open, deliveryId, decision, now)[0]);
    } else {
      assert grants + GrantAt(m.open, deliveryId, decision, now) == grants;
    }
  }

  lemma ContinuesThrough(m: Monitor, e: Effect, deliveryId: seq<bv8>, p: Policy, createdAt: I64,
                         grants: seq<RetryChain.GrantRecord>)
    requires !e.Completed? && Continues(m, deliveryId, p, createdAt, grants)
    requires e.Claimed? ==> ClaimContract(e.claim, e.at, deliveryId, p, createdAt, grants)
    ensures Continues(Observe(m, e), deliveryId, p, createdAt, grants)
  {
  }

  lemma {:induction false} GrantsFormAChain(h: History, deliveryId: seq<bv8>, p: Policy,
                                            createdAt: I64)
    requires Lawful(h) && StoreContract(h, deliveryId, p, createdAt)
    ensures RetryChain.Chain(RetryChain.GrantsOf(p, deliveryId, createdAt), createdAt,
                             Grants(h, deliveryId))
    ensures Continues(Watch(h), deliveryId, p, createdAt, Grants(h, deliveryId))
  {
    match h
    case Empty =>
    case Then(past, Completed(decision, now)) =>
      GrantsFormAChain(past, deliveryId, p, createdAt);
      WatchIsHistory(past);
      CompletionContinuesChain(Watch(past), deliveryId, p, createdAt, Grants(past, deliveryId),
                               decision, now);
    case Then(past, e) =>
      GrantsFormAChain(past, deliveryId, p, createdAt);
      ContinuesThrough(Watch(past), e, deliveryId, p, createdAt, Grants(past, deliveryId));
  }

  /**
  Over any run in which the store keeps its contract, a delivery is granted no more retries
  than its attempt budget and its deadline window allow, all strictly before its deadline.
  */
  lemma DeliveryRetriesAreBounded(events: seq<Event>, deliveryId: seq<bv8>, p: Policy,
                                  createdAt: I64)
    requires Valid(p) && StoreContract(HistoryOf(events), deliveryId, p, createdAt)
    ensures p.deliveryRetryBaseSeconds >= 1
    ensures |Grants(HistoryOf(events), deliveryId)|
            <= Min(p.deliveryMaxAttempts - 1,
                   (p.deliveryDeadlineSeconds - 1) / p.deliveryRetryBaseSeconds)
    ensures RetryChain.Spaced(p, createdAt, Grants(HistoryOf(events), deliveryId))
  {
    RunsAreLawful(events);
    GrantsFormAChain(HistoryOf(events), deliveryId, p, createdAt);
    RetryChain.ChainsStayInsideTheirWindow(p, deliveryId, createdAt,
                                           Grants(HistoryOf(events), deliveryId));
  }
}
