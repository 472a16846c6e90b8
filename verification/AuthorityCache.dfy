/**
The cached deployment authority of the scheduled executor: when it may be claimed with, what
admission it yields, and how concurrent refreshes rotate it.
*/
module AuthorityCache {
  import opened MachineInts

  const CLAIM_MIN_REMAINING_SECONDS: I64 := 30
  const ADMISSION_OPERATION_SECONDS: I64 := 5

  datatype Authority = Authority(
    schemaVersion: U32,
    deploymentEpoch: I64,
    attestationId: string,
    attestationDigest: string,
    profileDigest: string,
    issuedAt: U64,
    expiresAt: U64
  )

  datatype Admission = Admission(
    schemaVersion: U32,
    deploymentEpoch: I64,
    attestationId: string,
    profileDigest: string,
    signedNotAfter: I64,
    operationDeadline: I64
  )

  /** What is registered with the store for an epoch. */
  datatype EpochRecord = EpochRecord(
    schemaVersion: U32,
    deploymentEpoch: I64,
    attestationId: string,
    attestationDigest: string,
    profileDigest: string,
    issuedAt: I64,
    expiresAt: I64
  )

  function ToI64(x: U64): Option<I64> {
    if x <= I64_MAX then Some(x) else None
  }

  function EpochRecordOf(a: Authority): EpochRecord {
    EpochRecord(a.schemaVersion, a.deploymentEpoch, a.attestationId, a.attestationDigest,
                a.profileDigest, Min(a.issuedAt, I64_MAX), Min(a.expiresAt, I64_MAX))
  }

  predicate IsClaimable(a: Authority, now: I64) {
    match ToI64(a.expiresAt)
    case None => false
    case Some(expiresAt) =>
      now > 0 && SaturatingSub(expiresAt, now) > CLAIM_MIN_REMAINING_SECONDS
  }

  /** The admission of a cached authority; the clock may fail to give a time. */
  function AdmissionOf(cached: Authority, clock: Option<I64>): Option<Admission> {
    if clock.None? || !IsClaimable(cached, clock.value) then None
    else
      var now := clock.value;
      var notAfter := ToI64(cached.expiresAt);
      var soon := CheckedAdd(now, ADMISSION_OPERATION_SECONDS);
      if notAfter.None? || soon.None? then None
      else
        var deadline := Min(soon.value, SaturatingSub(notAfter.value, 1));
        if deadline <= now then None
        else Some(Admission(cached.schemaVersion, cached.deploymentEpoch, cached.attestationId,
                            cached.profileDigest, notAfter.value, deadline))
  }

  /** The authority has more than thirty seconds left, on unbounded integers. */
  predicate HasTimeLeft(a: Authority, now: I64) {
    now > 0 && a.expiresAt <= I64_MAX && a.expiresAt - now > 30
  }

  /**
  An admission exists exactly when the clock works and the cached authority has more than thirty
  seconds left; its deadline is then five seconds ahead, strictly before the signed expiry.
  */
  lemma AdmissionExactly(cached: Authority, clock: Option<I64>)
    ensures AdmissionOf(cached, clock).Some? <==> clock.Some? && HasTimeLeft(cached, clock.value)
    ensures AdmissionOf(cached, clock).Some? ==>
              var a := AdmissionOf(cached, clock).value;
              && a.operationDeadline == clock.value + 5 < a.signedNotAfter == cached.expiresAt
              && a.deploymentEpoch == cached.deploymentEpoch
              && a.attestationId == cached.attestationId
              && a.profileDigest == cached.profileDigest
              && a.schemaVersion == cached.schemaVersion
  {
  }

  /** The first half of a refresh: what to register, if anything. */
  function Candidate(cached: Authority, clock: Option<I64>, source: Option<Authority>)
    : Option<Authority>
  {
    if clock.None? || source.None? then None
    else if !IsClaimable(source.value, clock.value) then None
    else if source.value == cached then None
    else if source.value.deploymentEpoch <= cached.deploymentEpoch then None
    else source
  }

  /** The second half, after the registration was awaited: the epoch is compared again. */
  function Adopt(cached: Authority, candidate: Authority): Authority {
    if candidate.deploymentEpoch > cached.deploymentEpoch then candidate else cached
  }

  /** The lock-guarded cache; each method is one critical section. */
  class ScheduledAuthorityManager {
    var cached: Authority

    constructor (initial: Authority)
      ensures cached == initial
    {
      cached := initial;
    }

    method IsReady(clock: Option<I64>) returns (ready: bool)
      ensures ready <==> clock.Some? && HasTimeLeft(cached, clock.value)
    {
      ready := clock.Some? && IsClaimable(cached, clock.value);
    }

    method Admit(clock: Option<I64>) returns (a: Option<Admission>)
      ensures a == AdmissionOf(cached, clock)
      ensures a.Some? <==> clock.Some? && HasTimeLeft(cached, clock.value)
      ensures a.Some? ==> a.value.operationDeadline == clock.value + 5 < a.value.signedNotAfter
    {
      AdmissionExactly(cached, clock);
      a := AdmissionOf(cached, clock);
    }

    method BeginRefresh(clock: Option<I64>, source: Option<Authority>)
      returns (candidate: Option<Authority>)
      ensures candidate == Candidate(cached, clock, source)
      ensures candidate ==
                if && clock.Some? && source.Some? && HasTimeLeft(source.value, clock.value)
                   && source.value.deploymentEpoch > cached.deploymentEpoch
                then source else None
    {
      if clock.None? || source.None? || !IsClaimable(source.value, clock.value) {
        return None;
      }
      if source.value == cached || source.value.deploymentEpoch <= cached.deploymentEpoch {
        return None;
      }
      candidate := source;
    }

    method FinishRefresh(candidate: Authority)
      modifies this
      ensures cached == Adopt(old(cached), candidate)
      ensures cached == if candidate.deploymentEpoch > old(cached).deploymentEpoch then candidate
                        else old(cached)
    {
      if candidate.deploymentEpoch > cached.deploymentEpoch {
        cached := candidate;
      }
    }
  }

  // ---------------------------------------------------------------- concurrent refreshes

  /**
  A refresh waits for the store to answer its registration, and then for the write lock. Other
  refreshes can run between the two.
  */
  datatype State = State(
    values: seq<Authority>,
    registering: map<nat, Authority>,
    adopting: map<nat, Authority>,
    registered: set<EpochRecord>
  )

  datatype Event =
    | Begin(refresh: nat, clock: Option<I64>, source: Option<Authority>)
    | RegistrationAnswered(refresh: nat, ok: bool)
    | WriteCache(refresh: nat)

  function Initial(initial: Authority): State {
    State([initial], map[], map[], {})
  }

  function Cached(s: State): Authority
    requires s.values != []
  {
    s.values[|s.values| - 1]
  }

  function Answer(s: State, id: nat, ok: bool): State {
    if id !in s.registering then s
    else
      var candidate := s.registering[id];
      var answered := s.(registering := s.registering - {id});
      if !ok then answered
      else answered.(registered := s.registered + {EpochRecordOf(candidate)},
                     adopting := s.adopting[id := candidate])
  }

  function Write(s: State, id: nat): State
    requires s.values != []
  {
    if id !in s.adopting then s
    else
      var next := Adopt(Cached(s), s.adopting[id]);
      s.(adopting := s.adopting - {id},
         values := if next == Cached(s) then s.values else s.values + [next])
  }

  function Step(s: State, e: Event): (r: State)
    requires s.values != []
    ensures r.values != []
  {
    match e
    case Begin(id, clock, source) =>
      var candidate := Candidate(Cached(s), clock, source);
      if id in s.registering || id in s.adopting || candidate.None? then s
      else s.(registering := s.registering[id := candidate.value])
    case RegistrationAnswered(id, ok) => Answer(s, id, ok)
    case WriteCache(id) => Write(s, id)
  }

  function Run(initial: Authority, events: seq<Event>): (r: State)
    ensures r.values != []
  {
    if events == [] then Initial(initial)
    else Step(Run(initial, events[..|events| - 1]), events[|events| - 1])
  }

  /** A refresh that registered this record has yet to write the cache. */
  ghost predicate AwaitsWrite(s: State, r: EpochRecord) {
    exists id | id in s.adopting :: EpochRecordOf(s.adopting[id]) == r
  }

  ghost predicate Invariant(initial: Authority, s: State) {
    && s.values != [] && s.values[0] == initial
    && (forall i | 0 < i < |s.values| ::
          && s.values[i - 1].deploymentEpoch < s.values[i].deploymentEpoch
          && EpochRecordOf(s.values[i]) in s.registered)
    && (forall id | id in s.adopting :: EpochRecordOf(s.adopting[id]) in s.registered)
    && (forall r | r in s.registered ::
          r.deploymentEpoch <= Cached(s).deploymentEpoch || AwaitsWrite(s, r))
    && s.registering.Keys !! s.adopting.Keys
  }

  lemma {:induction false} EpochsIncrease(values: seq<Authority>, i: nat, j: nat)
    requires i < j < |values|
    requires forall k | 0 < k < |values| ::
               values[k - 1].deploymentEpoch < values[k].deploymentEpoch
    ensures values[i].deploymentEpoch < values[j].deploymentEpoch
  {
    if i + 1 < j {
      EpochsIncrease(values, i, j - 1);
    }
  }

  lemma AnswerKeeps(initial: Authority, s: State, id: nat, ok: bool)
    requires Invariant(initial, s)
    ensures Invariant(initial, Answer(s, id, ok))
  {
    var t := Answer(s, id, ok);
    forall r | r in t.registered
      ensures r.deploymentEpoch <= Cached(t).deploymentEpoch || AwaitsWrite(t, r)
    {
      if r in s.registered && AwaitsWrite(s, r) {
        var other :| other in s.adopting && EpochRecordOf(s.adopting[other]) == r;
        assert other in t.adopting && t.adopting[other] == s.adopting[other];
      } else if r !in s.registered {
        assert id in t.adopting && EpochRecordOf(t.adopting[id]) == r;
      }
    }
  }

  /** A record is no longer awaited only because the cache has caught up with it. */
  lemma WriteCatchesUp(initial: Authority, s: State, id: nat, r: EpochRecord)
    requires Invariant(initial, s) && id in s.adopting && r in s.registered
    ensures var t := Write(s, id);
            r.deploymentEpoch <= Cached(t).deploymentEpoch || AwaitsWrite(t, r)
  {
    var t := Write(s, id);
    assert Cached(t) == Adopt(Cached(s), s.adopting[id]);
    if AwaitsWrite(s, r) {
      var other :| other in s.adopting && EpochRecordOf(s.adopting[other]) == r;
      assert other != id ==> other in t.adopting && t.adopting[other] == s.adopting[other];
    }
  }

  lemma WriteOrders(s: State, id: nat)
    requires s.values != [] && id in s.adopting && EpochRecordOf(s.adopting[id]) in s.registered
    requires forall i | 0 < i < |s.values| ::
               && s.values[i - 1].deploymentEpoch < s.values[i].deploymentEpoch
               && EpochRecordOf(s.values[i]) in s.registered
    ensures var t := Write(s, id);
            && t.values != [] && t.values[0] == s.values[0]
            && forall i | 0 < i < |t.values| ::
                 && t.values[i - 1].deploymentEpoch < t.values[i].deploymentEpoch
                 && EpochRecordOf(t.values[i]) in t.registered
  {
  }

  lemma WriteKeeps(initial: Authority, s: State, id: nat)
    requires Invariant(initial, s)
    ensures Invariant(initial, Write(s, id))
  {
    var t := Write(s, id);
    if id in s.adopting {
      WriteOrders(s, id);
      forall r | r in t.registered
        ensures r.deploymentEpoch <= Cached(t).deploymentEpoch || AwaitsWrite(t, r)
      {
        WriteCatchesUp(initial, s, id, r);
      }
    }
  }

  lemma StepKeeps(initial: Authority, s: State, e: Event)
    requires Invariant(initial, s)
    ensures Invariant(initial, Step(s, e))
  {
    match e
    case Begin(_, _, _) =>
      assert forall r | r in s.registered :: AwaitsWrite(s, r) ==> AwaitsWrite(Step(s, e), r);
    case RegistrationAnswered(id, ok) => AnswerKeeps(initial, s, id, ok);
    case WriteCache(id) => WriteKeeps(initial, s, id);
  }

  lemma {:induction false} RunKeeps(initial: Authority, events: seq<Event>)
    ensures Invariant(initial, Run(initial, events))
  {
    if events != [] {
      RunKeeps(initial, events[..|events| - 1]);
      StepKeeps(initial, Run(initial, events[..|events| - 1]), events[|events| - 1]);
    }
  }

  /**
  Under any number of concurrent refreshes the cached authority moves only to strictly higher
  epochs that were registered successfully, so two authorities of one epoch are never swapped.
  */
  lemma RotationIsMonotone(initial: Authority, events: seq<Event>, i: nat, j: nat)
    requires i < j < |Run(initial, events).values|
    ensures var s := Run(initial, events);
            && s.values[i].deploymentEpoch < s.values[j].deploymentEpoch
            && EpochRecordOf(s.values[j]) in s.registered
            && s.values[0] == initial
  {
    RunKeeps(initial, events);
    EpochsIncrease(Run(initial, events).values, i, j);
  }

  /**
  A registered epoch is ahead of the cache only while the refresh that registered it has yet to
  write, so none is once no refresh is left to write.
  */
  lemma NoRegistrationIsLost(initial: Authority, events: seq<Event>, r: EpochRecord)
    requires r in Run(initial, events).registered
    ensures var s := Run(initial, events);
            && (r.deploymentEpoch <= Cached(s).deploymentEpoch || AwaitsWrite(s, r))
            && (s.adopting == map[] ==> r.deploymentEpoch <= Cached(s).deploymentEpoch)
  {
    RunKeeps(initial, events);
  }

  /** Values only accumulate: an extended run keeps every earlier cached authority. */
  lemma {:induction false} ValuesAccumulate(initial: Authority, events: seq<Event>, n: nat)
    requires n <= |events|
    ensures Run(initial, events[..n]).values <= Run(initial, events).values
  {
    if n < |events| {
      ValuesAccumulate(initial, events[..|events| - 1], n);
      assert events[..|events| - 1][..n] == events[..n];
    } else {
      assert events[..n] == events;
    }
  }

  // ---------------------------------------------------------------- a refresh that goes through

  /** What is registered is the authority's own record, field by field. */
  lemma RecordSaysAuthority(a: Authority)
    requires a.issuedAt <= I64_MAX && a.expiresAt <= I64_MAX
    ensures var r := EpochRecordOf(a);
            && r.schemaVersion == a.schemaVersion && r.deploymentEpoch == a.deploymentEpoch
            && r.attestationId == a.attestationId && r.attestationDigest == a.attestationDigest
            && r.profileDigest == a.profileDigest
            && r.issuedAt == a.issuedAt && r.expiresAt == a.expiresAt
  {
  }

  lemma RunExtends(initial: Authority, events: seq<Event>, e: Event)
    ensures Run(initial, events + [e]) == Step(Run(initial, events), e)
  {
    var longer := events + [e];
    assert longer[..|longer| - 1] == events && longer[|longer| - 1] == e;
  }

  /** A refresh asks for a registration exactly when it was offered a newer, lasting authority. */
  lemma RefreshBeginsExactly(initial: Authority, events: seq<Event>, id: nat, clock: Option<I64>,
                             source: Option<Authority>)
    requires var s := Run(initial, events); id !in s.registering && id !in s.adopting
    ensures var s, t := Run(initial, events), Run(initial, events + [Begin(id, clock, source)]);
            if && clock.Some? && source.Some? && HasTimeLeft(source.value, clock.value)
               && source.value.deploymentEpoch > Cached(s).deploymentEpoch
            then t == s.(registering := s.registering[id := source.value])
            else t == s
  {
    RunExtends(initial, events, Begin(id, clock, source));
  }

  /** Undisturbed, it rotates the cache to what it was offered; a failed registration does not. */
  lemma RefreshRotates(initial: Authority, events: seq<Event>, id: nat, now: I64, a: Authority,
                       ok: bool)
    requires var s := Run(initial, events);
             && id !in s.registering && id !in s.adopting
             && HasTimeLeft(a, now) && a.deploymentEpoch > Cached(s).deploymentEpoch
    ensures var s := Run(initial, events);
            var t := Run(initial, events + [Begin(id, Some(now), Some(a))]
                                  + [RegistrationAnswered(id, ok)] + [WriteCache(id)]);
            && Cached(t) == (if ok then a else Cached(s))
            && t.registered == s.registered + (if ok then {EpochRecordOf(a)} else {})
  {
    var asked := events + [Begin(id, Some(now), Some(a))];
    var answered := asked + [RegistrationAnswered(id, ok)];
    RefreshBeginsExactly(initial, events, id, Some(now), Some(a));
    RunExtends(initial, asked, RegistrationAnswered(id, ok));
    RunExtends(initial, answered, WriteCache(id));
    RunKeeps(initial, answered);
  }

  /**
  Once no refresh is left to write, the cache holds the highest epoch ever registered, or the
  initial one if none was higher.
  */
  lemma SettledCacheIsNewest(initial: Authority, events: seq<Event>)
    requires Run(initial, events).adopting == map[]
    ensures var s := Run(initial, events);
            && (Cached(s) == initial || EpochRecordOf(Cached(s)) in s.registered)
            && initial.deploymentEpoch <= Cached(s).deploymentEpoch
            && forall r | r in s.registered :: r.deploymentEpoch <= Cached(s).deploymentEpoch
  {
    var s := Run(initial, events);
    RunKeeps(initial, events);
    if |s.values| > 1 {
      EpochsIncrease(s.values, 0, |s.values| - 1);
    }
  }
}
