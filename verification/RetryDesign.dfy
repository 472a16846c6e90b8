/**
The retry rules as the design states them, on unbounded integers and without the program's own
helpers: the hash as a left fold over bytes, the jitter as its remainder, the hint as a clamp.
*/
module RetryDesign {
  import opened MachineInts
  import opened SchedulerPolicy
  import opened RetryBackoff

  // ---------------------------------------------------------------- the hash

  /** From the first byte to the last. */
  function FoldLeft(mix: Mixer, hash: bv64, bytes: seq<bv8>): bv64
    decreases |bytes|
  {
    if bytes == [] then hash else FoldLeft(mix, mix(hash, bytes[0]), bytes[1..])
  }

  function FnvMix(hash: bv64, byte: bv8): bv64 {
    (hash ^ (byte as bv64)) * 0x0000_0100_0000_01b3
  }

  /** FNV-1a, one byte after the other. */
  function FoldHash(bytes: seq<bv8>): bv64 {
    FoldLeft(FnvMix, 0xcbf2_9ce4_8422_2325, bytes)
  }

  lemma {:induction false} FoldLeftSnoc(mix: Mixer, hash: bv64, bytes: seq<bv8>, last: bv8)
    ensures FoldLeft(mix, hash, bytes + [last]) == mix(FoldLeft(mix, hash, bytes), last)
    decreases |bytes|
  {
    if bytes == [] {
      assert (bytes + [last])[1..] == [];
    } else {
      assert (bytes + [last])[1..] == bytes[1..] + [last];
      FoldLeftSnoc(mix, mix(hash, bytes[0]), bytes[1..], last);
    }
  }

  lemma {:induction false} FoldsAgree(mix: Mixer, other: Mixer, hash: bv64, bytes: seq<bv8>)
    requires forall h, b :: mix(h, b) == other(h, b)
    ensures FoldBytes(mix, hash, bytes) == FoldLeft(other, hash, bytes)
  {
    if bytes != [] {
      var n := |bytes| - 1;
      FoldsAgree(mix, other, hash, bytes[..n]);
      FoldLeftSnoc(other, hash, bytes[..n], bytes[n]);
      assert bytes == bytes[..n] + [bytes[n]];
    }
  }

  lemma HashIsFold(bytes: seq<bv8>)
    ensures StableHash(bytes) == FoldHash(bytes)
  {
    forall h, b ensures MixByte(h, b) == FnvMix(h, b) {
      MixesAgree(h, b);
    }
    FoldsAgree(MixByte, FnvMix, 0xcbf2_9ce4_8422_2325, bytes);
  }

  lemma MixesAgree(hash: bv64, byte: bv8)
    ensures MixByte(hash, byte) == FnvMix(hash, byte)
  {
  }

  /** The published values of FNV-1a for the empty input and for the letter a. */
  lemma KnownHashes()
    ensures StableHash([]) == 0xcbf2_9ce4_8422_2325
    ensures StableHash([0x61]) == 0xaf63_dc4c_8601_ec8c
  {
    assert [0x61 as bv8][..0] == [];
  }

  // ---------------------------------------------------------------- the delay

  function DesignTerm(base: int, cap: int, attempt: int): int {
    Min(cap, base * Pow2(Max(attempt, 1) - 1))
  }

  function DesignJitter(identity: seq<bv8>, term: int): int {
    FoldHash(identity) as int % Max(term / 4, 1)
  }

  function DesignDelay(base: int, cap: int, identity: seq<bv8>, attempt: int): int {
    var term := DesignTerm(base, cap, attempt);
    Min(cap, term + DesignJitter(identity, term))
  }

  lemma JitterIsRemainder(identity: seq<bv8>, term: U32)
    ensures Jitter(identity, term) == DesignJitter(identity, term)
  {
    HashIsFold(identity);
  }

  /** Whatever the attempt, a term without lost bits gives the designed delay. */
  lemma DelayIsDesigned(base: U32, cap: U32, identity: seq<bv8>, attempt: I64)
    requires ExponentialTerm(base, cap, attempt) == DesignTerm(base, cap, attempt)
    ensures BoundedExponentialDelay(base, cap, identity, attempt)
            == DesignDelay(base, cap, identity, attempt)
  {
    JitterIsRemainder(identity, ExponentialTerm(base, cap, attempt));
  }

  lemma FirstTermIsDesigned(base: U32, cap: U32, attempt: I64)
    requires attempt < 1
    ensures ExponentialTerm(base, cap, attempt) == DesignTerm(base, cap, attempt)
  {
    assert Exponent(attempt) == 0 && Pow2(0) == 1;
    SmallModulo(base, TWO_TO_THE_32);
  }

  lemma DeliveryTermIsDesigned(p: Policy, attempt: I64)
    requires DeliveryBounds(p) && attempt < p.deliveryMaxAttempts
    ensures ExponentialTerm(p.deliveryRetryBaseSeconds, p.deliveryRetryMaxSeconds, attempt)
            == DesignTerm(p.deliveryRetryBaseSeconds, p.deliveryRetryMaxSeconds, attempt)
  {
    if attempt < 1 {
      FirstTermIsDesigned(p.deliveryRetryBaseSeconds, p.deliveryRetryMaxSeconds, attempt);
    } else {
      BoundedDeliveryNeverWraps(p, attempt);
      TermIsIdeal(p.deliveryRetryBaseSeconds, p.deliveryRetryMaxSeconds, attempt);
    }
  }

  // ---------------------------------------------------------------- deliveries

  /** A hint asks for at least a second and at most the cap; without one nothing is asked. */
  function HintWait(cap: int, hint: Option<U64>): int {
    match hint
    case None => 0
    case Some(seconds) => Min(Max(seconds, 1), cap)
  }

  function DesignWait(p: Policy, deliveryId: seq<bv8>, attempt: int, hint: Option<U64>): int {
    Max(DesignDelay(p.deliveryRetryBaseSeconds, p.deliveryRetryMaxSeconds, deliveryId, attempt),
        HintWait(p.deliveryRetryAfterMaxSeconds, hint))
  }

  /** A retry is granted after the wait, if an attempt is left and the deadline is later. */
  function DesignRetry(p: Policy, deliveryId: seq<bv8>, attempt: int, createdAt: int, now: int,
                       hint: Option<U64>): Option<int>
  {
    var at := now + DesignWait(p, deliveryId, attempt, hint);
    var deadline := createdAt + p.deliveryDeadlineSeconds;
    if attempt < p.deliveryMaxAttempts && at < deadline <= I64_MAX then Some(at) else None
  }

  /** A grant is decided by the sums themselves, whether or not they fit. */
  lemma GrantExactly(now: I64, wait: I64, attempt: I64, maxAttempts: U16, from: I64, window: I64)
    requires wait >= 0 && window >= 0
    ensures Grant(CheckedAdd(now, wait), attempt, maxAttempts, CheckedAdd(from, window)) ==
            if attempt < maxAttempts && now + wait < from + window <= I64_MAX then Some(now + wait)
            else None
  {
  }

  lemma HintIsClamped(p: Policy, hint: Option<U64>)
    requires DeliveryBounds(p)
    ensures RetryAfterSeconds(p, hint) == HintWait(p.deliveryRetryAfterMaxSeconds, hint)
  {
  }

  lemma WaitIsDesigned(p: Policy, deliveryId: seq<bv8>, attempt: I64, hint: Option<U64>)
    requires DeliveryBounds(p) && attempt < p.deliveryMaxAttempts
    ensures Max(DeliveryRetryDelay(p, deliveryId, attempt), RetryAfterSeconds(p, hint))
            == DesignWait(p, deliveryId, attempt, hint)
  {
    HintIsClamped(p, hint);
    DeliveryTermIsDesigned(p, attempt);
    DelayIsDesigned(p.deliveryRetryBaseSeconds, p.deliveryRetryMaxSeconds, deliveryId, attempt);
  }

  lemma BoundedDeliveryRetryExactly(p: Policy, deliveryId: seq<bv8>, attempt: I64, createdAt: I64,
                                    now: I64, hint: Option<U64>)
    requires DeliveryBounds(p)
    ensures DeliveryRetryAt(p, deliveryId, attempt, createdAt, now, hint)
            == DesignRetry(p, deliveryId, attempt, createdAt, now, hint)
  {
    var wait := Max(DeliveryRetryDelay(p, deliveryId, attempt), RetryAfterSeconds(p, hint));
    assert DeliveryRetryAt(p, deliveryId, attempt, createdAt, now, hint)
        == Grant(CheckedAdd(now, wait), attempt, p.deliveryMaxAttempts,
                 CheckedAdd(createdAt, p.deliveryDeadlineSeconds));
    GrantExactly(now, wait, attempt, p.deliveryMaxAttempts, createdAt, p.deliveryDeadlineSeconds);
    if attempt < p.deliveryMaxAttempts {
      WaitIsDesigned(p, deliveryId, attempt, hint);
    }
  }

  /** Under an accepted policy a delivery's retry is the designed one, for every input. */
  lemma DeliveryRetryExactly(p: Policy, deliveryId: seq<bv8>, attempt: I64, createdAt: I64,
                             now: I64, hint: Option<U64>)
    requires Valid(p)
    ensures DeliveryRetryAt(p, deliveryId, attempt, createdAt, now, hint)
            == DesignRetry(p, deliveryId, attempt, createdAt, now, hint)
  {
    ValidImpliesBounds(p);
    BoundedDeliveryRetryExactly(p, deliveryId, attempt, createdAt, now, hint);
  }

  // ---------------------------------------------------------------- runs

  function DesignRunRetry(p: Policy, runId: seq<bv8>, attempt: int, scheduledFor: int, now: int)
    : Option<int>
  {
    var at := now + DesignDelay(p.runRetryBaseSeconds, p.runRetryMaxSeconds, runId, attempt);
    var deadline := scheduledFor + p.runDeadlineSeconds;
    if attempt < p.runMaxAttempts && at < deadline <= I64_MAX then Some(at) else None
  }

  lemma RunTermIsDesigned(p: Policy, attempt: I64)
    requires RunBounds(p) && !RunTermFallsShort(p) && attempt < p.runMaxAttempts
    ensures ExponentialTerm(p.runRetryBaseSeconds, p.runRetryMaxSeconds, attempt)
            == DesignTerm(p.runRetryBaseSeconds, p.runRetryMaxSeconds, attempt)
  {
    if attempt < 1 {
      FirstTermIsDesigned(p.runRetryBaseSeconds, p.runRetryMaxSeconds, attempt);
    } else {
      OtherTermsAreIdeal(p, attempt);
    }
  }

  lemma BoundedRunRetryExactly(p: Policy, runId: seq<bv8>, attempt: I64, scheduledFor: I64,
                               now: I64)
    requires RunBounds(p) && !RunTermFallsShort(p)
    ensures RunRetryAt(p, runId, attempt, scheduledFor, now)
            == DesignRunRetry(p, runId, attempt, scheduledFor, now)
  {
    if attempt < p.runMaxAttempts {
      RunTermIsDesigned(p, attempt);
      DelayIsDesigned(p.runRetryBaseSeconds, p.runRetryMaxSeconds, runId, attempt);
    }
  }

  /** So is a run's, for every accepted policy outside the family that loses bits. */
  lemma RunRetryExactly(p: Policy, runId: seq<bv8>, attempt: I64, scheduledFor: I64, now: I64)
    requires Valid(p) && !RunTermFallsShort(p)
    ensures RunRetryAt(p, runId, attempt, scheduledFor, now)
            == DesignRunRetry(p, runId, attempt, scheduledFor, now)
  {
    ValidImpliesBounds(p);
    BoundedRunRetryExactly(p, runId, attempt, scheduledFor, now);
  }
}
