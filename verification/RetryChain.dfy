/**
Chains of delivery retry grants. Each grant is computed no earlier than the time the
previous one allowed, for a later attempt of the same delivery.
*/
module RetryChain {
  import opened MachineInts
  import opened SchedulerPolicy
  import RetryBackoff

  /** One grant: the attempt that failed, when it was decided, the hint, and the time granted. */
  datatype GrantRecord = GrantRecord(attempt: I64, now: I64, retryAfter: Option<U64>, at: I64)

  predicate Granted(p: Policy, deliveryId: seq<bv8>, createdAt: I64, g: GrantRecord) {
    DeliveryRetryAt(p, deliveryId, g.attempt, createdAt, g.now, g.retryAfter) == Some(g.at)
  }

  /** The grants one delivery can be given under a policy. */
  function GrantsOf(p: Policy, deliveryId: seq<bv8>, createdAt: I64): GrantRecord -> bool {
    g => Granted(p, deliveryId, createdAt, g)
  }

  /** Grants in order, the newest last. */
  predicate Chain(granted: GrantRecord -> bool, createdAt: I64, grants: seq<GrantRecord>) {
    && (forall i | 0 <= i < |grants| :: granted(grants[i]))
    && (|grants| > 0 ==> grants[0].attempt >= 1 && grants[0].now >= createdAt)
    && (forall i | 0 < i < |grants| ::
          grants[i - 1].attempt < grants[i].attempt && grants[i - 1].at <= grants[i].now)
  }

  lemma ChainExtends(granted: GrantRecord -> bool, createdAt: I64, grants: seq<GrantRecord>,
                     g: GrantRecord)
    requires Chain(granted, createdAt, grants) && granted(g)
    requires g.attempt >= 1 && g.now >= createdAt
    requires grants != [] ==> grants[|grants| - 1].attempt < g.attempt
                              && grants[|grants| - 1].at <= g.now
    ensures Chain(granted, createdAt, grants + [g])
  {
  }

  /** What one grant promises. */
  lemma GrantWindow(p: Policy, deliveryId: seq<bv8>, createdAt: I64, g: GrantRecord)
    requires DeliveryBounds(p) && Granted(p, deliveryId, createdAt, g)
    ensures g.now + p.deliveryRetryBaseSeconds <= g.at
    ensures g.at - g.now <= Max(p.deliveryRetryMaxSeconds, p.deliveryRetryAfterMaxSeconds)
    ensures g.at < createdAt + p.deliveryDeadlineSeconds
    ensures g.attempt < p.deliveryMaxAttempts
    ensures g.retryAfter.Some? ==>
              g.at - g.now >= Min(Max(g.retryAfter.value, 1), p.deliveryRetryAfterMaxSeconds)
  {
    RetryBackoff.BoundedDeliveryDelay(p, deliveryId, g.attempt);
  }

  /** A retry is not refused while an attempt is left and the longest wait still fits. */
  lemma RoomMeansRetry(p: Policy, deliveryId: seq<bv8>, attempt: I64, createdAt: I64, now: I64,
                       retryAfter: Option<U64>)
    requires DeliveryBounds(p) && attempt < p.deliveryMaxAttempts
    requires now + Max(p.deliveryRetryMaxSeconds, p.deliveryRetryAfterMaxSeconds)
             < createdAt + p.deliveryDeadlineSeconds <= I64_MAX
    ensures DeliveryRetryAt(p, deliveryId, attempt, createdAt, now, retryAfter).Some?
  {
    RetryBackoff.BoundedDeliveryDelay(p, deliveryId, attempt);
  }

  /** The same window for a run's retry, whose wait can lose bits but never passes its cap. */
  lemma RunGrantWindow(p: Policy, runId: seq<bv8>, attempt: I64, scheduledFor: I64, now: I64)
    requires RunRetryAt(p, runId, attempt, scheduledFor, now).Some?
    ensures var at := RunRetryAt(p, runId, attempt, scheduledFor, now).value;
            && now <= at <= now + p.runRetryMaxSeconds
            && at < scheduledFor + p.runDeadlineSeconds
            && attempt < p.runMaxAttempts
  {
    RetryBackoff.DelayWithinCap(p.runRetryBaseSeconds, p.runRetryMaxSeconds, runId, attempt);
  }

  /** Times spaced by at least a base lie at least that many bases after their start. */
  lemma {:induction false} SpacedTimes(times: seq<int>, start: int, base: nat, i: nat)
    requires i < |times|
    requires times[0] >= start + base
    requires forall j | 0 < j < |times| :: times[j] >= times[j - 1] + base
    ensures times[i] >= start + (i + 1) * base
  {
    if i > 0 {
      SpacedTimes(times, start, base, i - 1);
      assert (i + 1) * base == i * base + base;
    }
  }

  /** So a window holds no more of them than it has whole bases. */
  lemma SpacedTimesFit(times: seq<int>, start: int, base: nat, window: nat)
    requires base >= 1 && |times| > 0
    requires times[0] >= start + base
    requires forall j | 0 < j < |times| :: times[j] >= times[j - 1] + base
    requires times[|times| - 1] <= start + window
    ensures |times| <= window / base
  {
    SpacedTimes(times, start, base, |times| - 1);
    QuotientBound(|times|, base, window);
  }

  lemma QuotientBound(n: nat, base: int, total: int)
    requires base >= 1 && total >= 0 && n * base <= total
    ensures n <= total / base
  {
    var q := total / base;
    assert total < q * base + base;
    assert (q + 1) * base == q * base + base;
    if q < n {
      MulMonotone(q + 1, n, base, base);
    }
  }

  /** Granted times grow by at least the base, and every grant stays inside its window. */
  predicate Spaced(p: Policy, createdAt: I64, grants: seq<GrantRecord>) {
    && (|grants| > 0 ==>
          grants[0].attempt >= 1 && grants[0].at >= createdAt + p.deliveryRetryBaseSeconds)
    && (forall i | 0 < i < |grants| ::
          && grants[i - 1].attempt < grants[i].attempt
          && grants[i].at >= grants[i - 1].at + p.deliveryRetryBaseSeconds)
    && (forall i | 0 <= i < |grants| ::
          && grants[i].attempt < p.deliveryMaxAttempts
          && grants[i].at - grants[i].now
             <= Max(p.deliveryRetryMaxSeconds, p.deliveryRetryAfterMaxSeconds)
          && grants[i].at < createdAt + p.deliveryDeadlineSeconds)
  }

  lemma ChainsAreSpaced(p: Policy, deliveryId: seq<bv8>, createdAt: I64, grants: seq<GrantRecord>)
    requires DeliveryBounds(p)
    requires Chain(GrantsOf(p, deliveryId, createdAt), createdAt, grants)
    ensures Spaced(p, createdAt, grants)
  {
    forall i | 0 <= i < |grants|
      ensures grants[i].attempt < p.deliveryMaxAttempts
      ensures grants[i].at >= grants[i].now + p.deliveryRetryBaseSeconds
      ensures grants[i].at - grants[i].now
              <= Max(p.deliveryRetryMaxSeconds, p.deliveryRetryAfterMaxSeconds)
      ensures grants[i].at < createdAt + p.deliveryDeadlineSeconds
    {
      assert GrantsOf(p, deliveryId, createdAt)(grants[i]);
      GrantWindow(p, deliveryId, createdAt, grants[i]);
    }
  }

  lemma {:induction false} AttemptsGrow(p: Policy, createdAt: I64, grants: seq<GrantRecord>, i: nat)
    requires Spaced(p, createdAt, grants) && i < |grants|
    ensures grants[i].attempt >= i + 1
  {
    if i > 0 {
      AttemptsGrow(p, createdAt, grants, i - 1);
    }
  }

  lemma SpacedLength(p: Policy, createdAt: I64, grants: seq<GrantRecord>)
    requires DeliveryBounds(p) && Spaced(p, createdAt, grants)
    ensures |grants| <= Min(p.deliveryMaxAttempts - 1,
                            (p.deliveryDeadlineSeconds - 1) / p.deliveryRetryBaseSeconds)
  {
    if |grants| > 0 {
      AttemptsGrow(p, createdAt, grants, |grants| - 1);
      SpacedTimesFit(seq(|grants|, i requires 0 <= i < |grants| => grants[i].at),
                     createdAt, p.deliveryRetryBaseSeconds, p.deliveryDeadlineSeconds - 1);
    } else {
      QuotientBound(0, p.deliveryRetryBaseSeconds, p.deliveryDeadlineSeconds - 1);
    }
  }

  /**
  Under an accepted policy every chain stays inside its window, and there are no more grants
  than the attempt budget and the window allow.
  */
  lemma ChainsStayInsideTheirWindow(p: Policy, deliveryId: seq<bv8>, createdAt: I64,
                                    grants: seq<GrantRecord>)
    requires Valid(p) && Chain(GrantsOf(p, deliveryId, createdAt), createdAt, grants)
    ensures Spaced(p, createdAt, grants)
    ensures p.deliveryRetryBaseSeconds >= 1
    ensures |grants| <= Min(p.deliveryMaxAttempts - 1,
                            (p.deliveryDeadlineSeconds - 1) / p.deliveryRetryBaseSeconds)
  {
    ValidImpliesBounds(p);
    ChainsAreSpaced(p, deliveryId, createdAt, grants);
    SpacedLength(p, createdAt, grants);
  }
}
