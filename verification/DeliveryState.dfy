/**
The two pieces of state a delivery worker keeps between ticks: the shared monotone clock
and the streak of deferred readiness probes.
*/
module DeliveryState {
  import opened MachineInts
  import opened SchedulerPolicy

  /** The value `fetch_max` leaves behind and every reader of it returns. */
  function Advance(last: I64, observed: I64): I64 {
    Max(last, Max(observed, 0))
  }

  /** A wall clock made monotone by remembering the largest time handed out. */
  class DeliveryTimeline {
    var last: I64

    constructor ()
      ensures last == 0
    {
      last := 0;
    }

    method FreshNow(observed: I64) returns (now: I64)
      modifies this
      ensures now == last == Advance(old(last), observed)
      ensures now >= old(last) && now >= observed && now >= 0
    {
      var clamped := Max(observed, 0);
      var previous := last;
      last := Max(last, clamped);
      now := Max(previous, clamped);
    }
  }

  /** The time handed out by the k-th reading, in the order of the atomic updates. */
  function FreshTime(observed: seq<I64>, k: nat): I64
    requires k < |observed|
  {
    Advance(if k == 0 then 0 else FreshTime(observed, k - 1), observed[k])
  }

  /** Whatever the clock shows, times never run backwards and never fall behind any reading. */
  lemma {:induction false} FreshTimesNeverDecrease(observed: seq<I64>, i: nat, k: nat)
    requires i <= k < |observed|
    ensures FreshTime(observed, i) <= FreshTime(observed, k)
    ensures observed[i] <= FreshTime(observed, k)
    ensures FreshTime(observed, k) == 0
            || exists j | 0 <= j <= k :: FreshTime(observed, k) == observed[j]
    decreases k
  {
    if i < k {
      FreshTimesNeverDecrease(observed, i, k - 1);
    } else if 0 < k {
      FreshTimesNeverDecrease(observed, k - 1, k - 1);
    }
  }

  // ---------------------------------------------------------------- readiness backoff

  datatype Readiness =
    | Ready
    | Deferred(retryAfter: Option<U64>)
    | RejectDelivery
    | FatalProvider

  /** `u64::checked_shl`: only the shift count is checked. */
  function CheckedShl64(x: U64, count: nat): Option<U64> {
    if count < 64 then Some(x * Pow2(count) % TWO_TO_THE_64) else None
  }

  /** The wait the code computes from the stored streak. */
  function WaitForStreak(p: Policy, streak: U32, hint: Option<U64>): U64 {
    var cap := p.deliveryReadinessRetryMaxSeconds;
    var local := match CheckedShl64(p.deliveryReadinessRetryBaseSeconds, Min(streak, 31))
      case Some(shifted) => Min(shifted, cap)
      case None => cap;
    var provider := if hint.Some? && hint.value > 0
      then Min(hint.value, p.deliveryRetryAfterMaxSeconds)
      else 0;
    Max(local, provider)
  }

  function StreakAfterDeferral(streak: U32): U32 {
    Min(streak + 1, U32_MAX)
  }

  /** The wait the design states for a deferral preceded by k others since the last Ready. */
  function WaitAfterDeferrals(p: Policy, k: nat, hint: Option<U64>): nat {
    Max(Min(p.deliveryReadinessRetryMaxSeconds, p.deliveryReadinessRetryBaseSeconds * Pow2(k)),
        if hint.Some? then Min(hint.value, p.deliveryRetryAfterMaxSeconds) else 0)
  }

  /** No readiness shift loses bits. */
  lemma ReadinessShiftIsExact(base: U64, count: nat)
    requires base <= 3_600 && count <= 31
    ensures CheckedShl64(base, count) == Some(base * Pow2(count))
  {
    var shifted := base * Pow2(count);
    assert shifted < TWO_TO_THE_64 by {
      Pow2Values();
      ScaleMonotone(base, 3_600, count, 31);
    }
    SmallModulo(shifted, TWO_TO_THE_64);
  }

  /** Past the clamp both shifts are beyond every accepted cap. */
  lemma ClampedShiftStaysCapped(base: U64, cap: int, k: nat)
    requires 1 <= base && cap <= 3_600
    ensures Min(base * Pow2(Min(k, 31)), cap) == Min(cap, base * Pow2(k))
  {
    if k > 31 {
      Pow2Values();
      ScaleMonotone(1, base, 31, 31);
      ScaleMonotone(1, base, 31, k);
    }
  }

  /** The clamped shift and the saturating streak never show in the computed wait. */
  lemma WaitMatchesDeferralCount(p: Policy, k: nat, hint: Option<U64>)
    requires DeliveryBounds(p)
    ensures WaitForStreak(p, Min(k, U32_MAX), hint) == WaitAfterDeferrals(p, k, hint)
  {
    ReadinessShiftIsExact(p.deliveryReadinessRetryBaseSeconds, Min(k, 31));
    ClampedShiftStaysCapped(p.deliveryReadinessRetryBaseSeconds,
                            p.deliveryReadinessRetryMaxSeconds, k);
    assert Min(Min(k, U32_MAX), 31) == Min(k, 31);
  }

  class DeliveryWorkerState {
    var readinessFailureStreak: U32
    /** How many probes were deferred since the last Ready. */
    ghost var deferrals: nat

    ghost predicate Valid()
      reads this
    {
      readinessFailureStreak == Min(deferrals, U32_MAX)
    }

    constructor ()
      ensures Valid() && deferrals == 0
    {
      readinessFailureStreak, deferrals := 0, 0;
    }

    method ReadinessReady()
      modifies this
      ensures Valid() && deferrals == 0
    {
      readinessFailureStreak, deferrals := 0, 0;
    }

    method ReadinessRetry(hint: Option<U64>, p: Policy) returns (wait: U64)
      requires Valid()
      modifies this
      ensures Valid() && deferrals == old(deferrals) + 1
      ensures wait == WaitForStreak(p, old(readinessFailureStreak), hint)
      ensures DeliveryBounds(p) ==> wait == WaitAfterDeferrals(p, old(deferrals), hint)
    {
      if DeliveryBounds(p) {
        WaitMatchesDeferralCount(p, deferrals, hint);
      }
      wait := WaitForStreak(p, readinessFailureStreak, hint);
      readinessFailureStreak := StreakAfterDeferral(readinessFailureStreak);
      deferrals := deferrals + 1;
    }
  }

  // ---------------------------------------------------------------- over whole histories

  /** The streak left by a history of verdicts; rejections and fatal verdicts leave it alone. */
  function StreakAfter(history: seq<Readiness>): U32 {
    if history == [] then 0
    else
      var before := StreakAfter(history[..|history| - 1]);
      match history[|history| - 1]
      case Ready => 0
      case Deferred(_) => StreakAfterDeferral(before)
      case _ => before
  }

  /** How many deferrals follow the last Ready of a history. */
  function DeferralsSinceReady(history: seq<Readiness>): nat {
    if history == [] || history[|history| - 1].Ready? then 0
    else DeferralsSinceReady(history[..|history| - 1])
         + if history[|history| - 1].Deferred? then 1 else 0
  }

  lemma {:induction false} StreakCountsDeferrals(history: seq<Readiness>)
    ensures StreakAfter(history) == Min(DeferralsSinceReady(history), U32_MAX)
  {
    if history != [] {
      StreakCountsDeferrals(history[..|history| - 1]);
    }
  }

  /**
  Whatever the history, the next deferral under an accepted policy waits for the doubled base
  up to its cap, or for the provider's capped hint when that is longer.
  */
  lemma ReadinessBackoffMatchesHistory(p: Policy, history: seq<Readiness>, hint: Option<U64>)
    requires SchedulerPolicy.Valid(p)
    ensures WaitForStreak(p, StreakAfter(history), hint)
            == WaitAfterDeferrals(p, DeferralsSinceReady(history), hint)
  {
    ValidImpliesBounds(p);
    StreakCountsDeferrals(history);
    WaitMatchesDeferralCount(p, DeferralsSinceReady(history), hint);
  }
}
