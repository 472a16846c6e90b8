/**
The truncating backoff against its closed form on unbounded integers: where they agree,
and exactly which accepted policies make them differ.
*/
module RetryBackoff {
  import opened MachineInts
  import opened SchedulerPolicy

  /** The shift loses no bits. */
  predicate NoWrap(base: U32, attempt: int)
    requires attempt >= 1
  {
    base * Pow2(attempt - 1) < TWO_TO_THE_32
  }

  /** The exponential term as the design states it, on unbounded integers. */
  function IdealTerm(base: U32, cap: U32, attempt: int): U32
    requires attempt >= 1
  {
    Min(cap, base * Pow2(attempt - 1))
  }

  /** A delay lies between its exponential term and its cap, whatever the inputs. */
  lemma DelayWithinCap(base: U32, cap: U32, identity: seq<bv8>, attempt: I64)
    ensures ExponentialTerm(base, cap, attempt)
            <= BoundedExponentialDelay(base, cap, identity, attempt) <= cap
  {
  }

  /** Past attempt 32 only a zero base keeps all its bits. */
  lemma LateNoWrapMeansZero(base: U32, attempt: int)
    requires attempt > 32 && NoWrap(base, attempt)
    ensures base == 0
  {
    assert Pow2(32) == TWO_TO_THE_32 by { Pow2Values(); }
    if base > 0 {
      ScaleMonotone(1, base, 32, attempt - 1);
    }
  }

  lemma EarlyTermIsIdeal(base: U32, cap: U32, attempt: I64)
    requires 1 <= attempt <= 32 && NoWrap(base, attempt)
    ensures ExponentialTerm(base, cap, attempt) == IdealTerm(base, cap, attempt)
  {
    var shifted := base * Pow2(attempt - 1);
    assert Exponent(attempt) == attempt - 1;
    SmallModulo(shifted, TWO_TO_THE_32);
  }

  /** Without lost bits the term is the ideal one. */
  lemma TermIsIdeal(base: U32, cap: U32, attempt: I64)
    requires attempt >= 1 && NoWrap(base, attempt)
    ensures ExponentialTerm(base, cap, attempt) == IdealTerm(base, cap, attempt)
  {
    if attempt > 32 {
      LateNoWrapMeansZero(base, attempt);
      assert 0 * Pow2(Exponent(attempt)) == 0 && 0 * Pow2(attempt - 1) == 0;
    } else {
      EarlyTermIsIdeal(base, cap, attempt);
    }
  }

  /** Without lost bits a delay is the capped sum of the ideal term and a jitter below a quarter. */
  lemma BackoffClosedForm(base: U32, cap: U32, identity: seq<bv8>, attempt: I64)
    requires attempt >= 1 && NoWrap(base, attempt)
    ensures var e := IdealTerm(base, cap, attempt);
            && BoundedExponentialDelay(base, cap, identity, attempt)
               == Min(cap, e + Jitter(identity, e))
            && Jitter(identity, e) < Max(e / 4, 1)
  {
    TermIsIdeal(base, cap, attempt);
  }

  /** A jittered term stays at or below twice the term, or at its cap. */
  lemma JitterStaysBelowDouble(cap: U32, identity: seq<bv8>, e: U32, later: U32)
    requires e <= cap && Min(cap, 2 * e) <= later
    ensures Min(cap, e + Jitter(identity, e)) <= later
  {
    if e > 0 {
      assert Jitter(identity, e) < Max(e / 4, 1) <= e;
    }
  }

  lemma TermsAtLeastDouble(base: U32, cap: U32, attempt: int, later: int)
    requires 1 <= attempt < later && NoWrap(base, later)
    ensures NoWrap(base, attempt)
    ensures Min(cap, 2 * IdealTerm(base, cap, attempt)) <= IdealTerm(base, cap, later)
  {
    ScaleMonotone(base, base, attempt, later - 1);
    assert base * Pow2(attempt) == 2 * (base * Pow2(attempt - 1));
  }

  /** One identity's delays never shrink as attempts grow, as long as no bits are lost. */
  lemma BackoffMonotone(base: U32, cap: U32, identity: seq<bv8>, attempt: I64, later: I64)
    requires 1 <= attempt <= later && NoWrap(base, later)
    ensures BoundedExponentialDelay(base, cap, identity, attempt)
            <= BoundedExponentialDelay(base, cap, identity, later)
  {
    if attempt < later {
      TermsAtLeastDouble(base, cap, attempt, later);
      BackoffClosedForm(base, cap, identity, attempt);
      TermIsIdeal(base, cap, later);
      JitterStaysBelowDouble(cap, identity, IdealTerm(base, cap, attempt),
                             IdealTerm(base, cap, later));
      DelayWithinCap(base, cap, identity, later);
    }
  }

  // ---------------------------------------------------------------- deliveries keep every bit

  lemma BoundedDeliveryNeverWraps(p: Policy, attempt: I64)
    requires DeliveryBounds(p) && 1 <= attempt < p.deliveryMaxAttempts
    ensures NoWrap(p.deliveryRetryBaseSeconds, attempt)
  {
    ScaleMonotone(p.deliveryRetryBaseSeconds, 3_600, attempt - 1, 18);
    Pow2Values();
  }

  lemma BoundedDeliveryTerm(p: Policy, attempt: I64)
    requires DeliveryBounds(p) && attempt < p.deliveryMaxAttempts
    ensures p.deliveryRetryBaseSeconds
            <= ExponentialTerm(p.deliveryRetryBaseSeconds, p.deliveryRetryMaxSeconds, attempt)
  {
    var base, cap := p.deliveryRetryBaseSeconds, p.deliveryRetryMaxSeconds;
    if attempt >= 1 {
      BoundedDeliveryNeverWraps(p, attempt);
      TermIsIdeal(base, cap, attempt);
      ScaleMonotone(base, base, 0, attempt - 1);
    } else {
      assert Exponent(attempt) == 0;
    }
  }

  /** Every delay a delivery can be granted is between the retry base and the retry cap. */
  lemma BoundedDeliveryDelay(p: Policy, deliveryId: seq<bv8>, attempt: I64)
    requires DeliveryBounds(p) && attempt < p.deliveryMaxAttempts
    ensures p.deliveryRetryBaseSeconds <= DeliveryRetryDelay(p, deliveryId, attempt)
            <= p.deliveryRetryMaxSeconds
  {
    BoundedDeliveryTerm(p, attempt);
    DelayWithinCap(p.deliveryRetryBaseSeconds, p.deliveryRetryMaxSeconds, deliveryId, attempt);
  }

  /** Under an accepted policy every grantable delivery attempt follows the closed form. */
  lemma DeliveryBackoffIsExact(p: Policy, deliveryId: seq<bv8>, attempt: I64)
    requires Valid(p) && 1 <= attempt < p.deliveryMaxAttempts
    ensures NoWrap(p.deliveryRetryBaseSeconds, attempt)
    ensures var e := IdealTerm(p.deliveryRetryBaseSeconds, p.deliveryRetryMaxSeconds, attempt);
            DeliveryRetryDelay(p, deliveryId, attempt)
            == Min(p.deliveryRetryMaxSeconds, e + Jitter(deliveryId, e))
  {
    ValidImpliesBounds(p);
    BoundedDeliveryNeverWraps(p, attempt);
    BackoffClosedForm(p.deliveryRetryBaseSeconds, p.deliveryRetryMaxSeconds, deliveryId, attempt);
  }

  // ---------------------------------------------------------------- runs can lose bits

  /** With the largest attempt budget a run keeps all bits exactly when its base is below 16384. */
  lemma RunGrantsWrapFrom16384(p: Policy)
    requires Valid(p) && p.runMaxAttempts == 20
    ensures (forall attempt: I64 | 1 <= attempt < 20 :: NoWrap(p.runRetryBaseSeconds, attempt))
            <==> p.runRetryBaseSeconds <= 16_383
  {
    var base := p.runRetryBaseSeconds;
    Pow2Values();
    assert NoWrap(base, 19) <==> base <= 16_383;
    if base <= 16_383 {
      forall attempt: I64 | 1 <= attempt < 20 ensures NoWrap(base, attempt) {
        ScaleMonotone(base, 16_383, attempt - 1, 18);
      }
    }
  }

  /** The attempt budgets and bases of accepted run policies whose term falls short. */
  predicate RunTermFallsShort(p: Policy) {
    var base, attempts := p.runRetryBaseSeconds, p.runMaxAttempts;
    || (attempts >= 18 && (base == 65_536 || base == 65_537))
    || (attempts >= 19 && base == 32_768)
    || (attempts == 20 && (base == 16_384 || base == 49_152 || base == 81_920))
  }

  /** The code's term for this attempt is the ideal one. */
  predicate RunTermIdeal(p: Policy, attempt: I64)
    requires attempt >= 1
  {
    ExponentialTerm(p.runRetryBaseSeconds, p.runRetryMaxSeconds, attempt)
    == IdealTerm(p.runRetryBaseSeconds, p.runRetryMaxSeconds, attempt)
  }

  /** A left shift truncated to 32 bits keeps the low bits of its operand. */
  lemma TruncatedShift(base: U32, modulus: int, factor: int)
    requires modulus > 0 && factor > 0 && modulus * factor == TWO_TO_THE_32
    ensures base * factor % TWO_TO_THE_32 == base % modulus * factor
  {
    var q, r := base / modulus, base % modulus;
    assert base * factor == (q * modulus + r) * factor == q * TWO_TO_THE_32 + r * factor;
    assert 0 <= r * factor < modulus * factor;
  }

  /** Up to attempt 16 no accepted run policy loses bits. */
  lemma EarlyRunTermIsIdeal(p: Policy, attempt: I64)
    requires RunBounds(p) && 1 <= attempt <= 16
    ensures RunTermIdeal(p, attempt)
  {
    assert Pow2(15) == 32_768 by { Pow2Values(); }
    ScaleMonotone(p.runRetryBaseSeconds, 86_400, attempt - 1, 15);
    TermIsIdeal(p.runRetryBaseSeconds, p.runRetryMaxSeconds, attempt);
  }

  lemma RunTermAt17(p: Policy)
    requires RunBounds(p)
    ensures RunTermIdeal(p, 17)
            <==> p.runRetryBaseSeconds != 65_536 && p.runRetryBaseSeconds != 65_537
  {
    Pow2Values();
    TruncatedShift(p.runRetryBaseSeconds, 65_536, 65_536);
    assert Exponent(17) == 16;
  }

  lemma RunTermAt18(p: Policy)
    requires RunBounds(p)
    ensures RunTermIdeal(p, 18)
            <==> p.runRetryBaseSeconds != 32_768 && p.runRetryBaseSeconds != 65_536
  {
    Pow2Values();
    TruncatedShift(p.runRetryBaseSeconds, 32_768, 131_072);
    assert Exponent(18) == 17;
  }

  lemma RunTermAt19(p: Policy)
    requires RunBounds(p)
    ensures RunTermIdeal(p, 19) <==> p.runRetryBaseSeconds % 16_384 != 0
  {
    Pow2Values();
    TruncatedShift(p.runRetryBaseSeconds, 16_384, 262_144);
    assert Exponent(19) == 18;
  }

  lemma OtherTermsAreIdeal(p: Policy, attempt: I64)
    requires RunBounds(p) && !RunTermFallsShort(p) && 1 <= attempt < p.runMaxAttempts
    ensures RunTermIdeal(p, attempt)
  {
    if attempt <= 16 {
      EarlyRunTermIsIdeal(p, attempt);
    } else if attempt == 17 {
      RunTermAt17(p);
    } else if attempt == 18 {
      RunTermAt18(p);
    } else {
      RunTermAt19(p);
    }
  }

  lemma BoundedRunBackoffExactness(p: Policy)
    requires RunBounds(p)
    ensures (forall attempt: I64 | 1 <= attempt < p.runMaxAttempts :: RunTermIdeal(p, attempt))
            <==> !RunTermFallsShort(p)
  {
    if RunTermFallsShort(p) {
      FamilyFallsShort(p);
      assert !RunTermIdeal(p, ShortAttempt(p));
    } else {
      forall attempt: I64 | 1 <= attempt < p.runMaxAttempts ensures RunTermIdeal(p, attempt) {
        OtherTermsAreIdeal(p, attempt);
      }
    }
  }

  /**
  An accepted run policy backs off as designed on every attempt that can be granted a retry
  exactly when its base and attempt budget are outside the listed family.
  */
  lemma RunBackoffExactness(p: Policy)
    requires Valid(p)
    ensures (forall attempt: I64 | 1 <= attempt < p.runMaxAttempts :: RunTermIdeal(p, attempt))
            <==> !RunTermFallsShort(p)
  {
    ValidImpliesBounds(p);
    BoundedRunBackoffExactness(p);
  }

  // ---------------------------------------------------------------- and it shows in the delay

  /** The delay as the design states it, on unbounded integers. */
  function IdealRunDelay(p: Policy, runId: seq<bv8>, attempt: I64): int
    requires attempt >= 1
  {
    var e := IdealTerm(p.runRetryBaseSeconds, p.runRetryMaxSeconds, attempt);
    Min(p.runRetryMaxSeconds, e + Jitter(runId, e))
  }

  predicate RunDelayIdeal(p: Policy, runId: seq<bv8>, attempt: I64)
    requires attempt >= 1
  {
    RunRetryDelay(p, runId, attempt) == IdealRunDelay(p, runId, attempt)
  }

  lemma IdealTermGivesIdealDelay(p: Policy, runId: seq<bv8>, attempt: I64)
    requires attempt >= 1 && RunTermIdeal(p, attempt)
    ensures RunDelayIdeal(p, runId, attempt)
  {
  }

  lemma IdealDelayReachesTerm(p: Policy, runId: seq<bv8>, attempt: I64)
    requires attempt >= 1
    ensures IdealRunDelay(p, runId, attempt)
            >= IdealTerm(p.runRetryBaseSeconds, p.runRetryMaxSeconds, attempt)
  {
  }

  /** A run id whose hash has no low bits, so that its jitter on 65536 seconds is nothing. */
  const PLAIN_RUN_ID: seq<bv8> := [104, 107, 116]

  lemma PlainRunIdHash()
    ensures StableHash(PLAIN_RUN_ID) == 0x336c_1419_3000_4000
  {
    assert StableHash([]) == FNV_OFFSET;
    assert [104 as bv8][..0] == [];
    assert StableHash([104 as bv8]) == 0xaf63_e54c_8601_fbd7;
    assert [104 as bv8, 107][..1] == [104 as bv8];
    assert StableHash([104 as bv8, 107]) == 0x08ba_5d07_b55e_c074;
    assert PLAIN_RUN_ID[..2] == [104 as bv8, 107];
  }

  lemma PlainRunIdHasNoJitter()
    ensures Jitter(PLAIN_RUN_ID, 65_536) == 0
  {
    PlainRunIdHash();
    assert 0x336c_1419_3000_4000 % 16_384 == 0;
  }

  /** A short term shows for some run. */
  lemma ShortTermShows(p: Policy, attempt: I64)
    requires RunBounds(p) && attempt >= 1
    requires ExponentialTerm(p.runRetryBaseSeconds, p.runRetryMaxSeconds, attempt)
             < IdealTerm(p.runRetryBaseSeconds, p.runRetryMaxSeconds, attempt)
    requires ExponentialTerm(p.runRetryBaseSeconds, p.runRetryMaxSeconds, attempt) == 0
             || ExponentialTerm(p.runRetryBaseSeconds, p.runRetryMaxSeconds, attempt) == 65_536
    ensures !RunDelayIdeal(p, PLAIN_RUN_ID, attempt)
  {
    IdealDelayReachesTerm(p, PLAIN_RUN_ID, attempt);
    PlainRunIdHasNoJitter();
    assert Jitter(PLAIN_RUN_ID, 0) == 0;
  }

  /** The first attempt whose term falls short, for each policy of the family. */
  function ShortAttempt(p: Policy): I64 {
    if p.runRetryBaseSeconds == 65_536 || p.runRetryBaseSeconds == 65_537 then 17
    else if p.runRetryBaseSeconds == 32_768 then 18
    else 19
  }

  lemma LostBits()
    ensures CheckedShl32(65_536, 16) == Some(0) && CheckedShl32(65_537, 16) == Some(65_536)
    ensures CheckedShl32(32_768, 17) == Some(0)
    ensures CheckedShl32(16_384, 18) == CheckedShl32(49_152, 18) == Some(0)
    ensures CheckedShl32(81_920, 18) == Some(0)
  {
    Pow2Values();
  }

  lemma FamilyTerm(p: Policy)
    requires RunBounds(p) && RunTermFallsShort(p)
    ensures 1 <= ShortAttempt(p) < p.runMaxAttempts
    ensures ExponentialTerm(p.runRetryBaseSeconds, p.runRetryMaxSeconds, ShortAttempt(p))
            == if p.runRetryBaseSeconds == 65_537 then 65_536 else 0
  {
    LostBits();
    assert Exponent(17) == 16 && Exponent(18) == 17 && Exponent(19) == 18;
  }

  /** The design calls for the cap from attempt 17 on, whatever the base of the family. */
  lemma FamilyIdealIsCap(p: Policy)
    requires RunBounds(p) && RunTermFallsShort(p)
    ensures IdealTerm(p.runRetryBaseSeconds, p.runRetryMaxSeconds, ShortAttempt(p))
            == p.runRetryMaxSeconds
  {
    assert Pow2(16) == 65_536 by { Pow2Values(); }
    ScaleMonotone(2, p.runRetryBaseSeconds, 16, ShortAttempt(p) - 1);
  }

  lemma FamilyFallsShort(p: Policy)
    requires RunBounds(p) && RunTermFallsShort(p)
    ensures 1 <= ShortAttempt(p) < p.runMaxAttempts
    ensures var base, cap := p.runRetryBaseSeconds, p.runRetryMaxSeconds;
            var term := ExponentialTerm(base, cap, ShortAttempt(p));
            (term == 0 || term == 65_536) && term < IdealTerm(base, cap, ShortAttempt(p))
  {
    FamilyTerm(p);
    FamilyIdealIsCap(p);
  }

  /**
  So the delay itself follows the design for every run and every attempt that can be granted a
  retry exactly when the policy is outside the family.
  */
  lemma RunDelayExactness(p: Policy)
    requires Valid(p)
    ensures (forall runId: seq<bv8>, attempt: I64 | 1 <= attempt < p.runMaxAttempts ::
               RunDelayIdeal(p, runId, attempt))
            <==> !RunTermFallsShort(p)
  {
    ValidImpliesBounds(p);
    BoundedRunDelayExactness(p);
  }

  lemma BoundedRunDelayExactness(p: Policy)
    requires RunBounds(p)
    ensures (forall runId: seq<bv8>, attempt: I64 | 1 <= attempt < p.runMaxAttempts ::
               RunDelayIdeal(p, runId, attempt))
            <==> !RunTermFallsShort(p)
  {
    if RunTermFallsShort(p) {
      FamilyFallsShort(p);
      ShortTermShows(p, ShortAttempt(p));
    } else {
      BoundedRunBackoffExactness(p);
      forall runId: seq<bv8>, attempt: I64 | 1 <= attempt < p.runMaxAttempts
        ensures RunDelayIdeal(p, runId, attempt)
      {
        IdealTermGivesIdealDelay(p, runId, attempt);
      }
    }
  }

  /** An accepted policy whose nineteenth run attempt is retried with no delay at all. */
  const VANISHING_BACKOFF: Policy :=
    DEFAULT_POLICY.(runRetryBaseSeconds := 16_384, runRetryMaxSeconds := 16_384,
                    runMaxAttempts := 20, runDeadlineSeconds := 604_800)

  lemma VanishingBackoffIsAccepted()
    ensures Valid(VANISHING_BACKOFF) && RunTermFallsShort(VANISHING_BACKOFF)
  {
  }

  lemma VanishingTerms()
    ensures ExponentialTerm(16_384, 16_384, 18) == 16_384
    ensures ExponentialTerm(16_384, 16_384, 19) == 0
  {
    Pow2Values();
    assert Exponent(18) == 17 && Exponent(19) == 18;
    assert CheckedShl32(16_384, 17) == Some(0x8000_0000);
    assert CheckedShl32(16_384, 18) == Some(0);
  }

  lemma VanishingDelays(runId: seq<bv8>)
    ensures RunRetryDelay(VANISHING_BACKOFF, runId, 18) == 16_384
    ensures RunRetryDelay(VANISHING_BACKOFF, runId, 19) == 0
  {
    VanishingTerms();
    DelayWithinCap(16_384, 16_384, runId, 18);
    assert Jitter(runId, 0) == 0;
  }

  /** Attempt 18 waits the full base, attempt 19 is granted a retry at once. */
  lemma RunBackoffCanVanish(runId: seq<bv8>, now: I64)
    requires 0 <= now < 500_000
    ensures RunRetryAt(VANISHING_BACKOFF, runId, 18, 0, now) == Some(now + 16_384)
    ensures RunRetryAt(VANISHING_BACKOFF, runId, 19, 0, now) == Some(now)
  {
    VanishingDelays(runId);
  }
}
