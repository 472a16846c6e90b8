/**
What a schedule mutation's request digest is taken over: the canonical text of a JSON object
describing the mutation. The theorems say which requests share that text; SHA-256 itself is
outside the model.
*/
module DigestPreimage {
  import opened MachineInts
  import opened CanonicalJson
  import opened JsonText
  import opened JsonReader

  const SNAPSHOT_VERSION: U32 := 1
  const DEFINITION_VERSION: U32 := 2

  datatype Principal = Principal(kind: string, provider: string, tenant: string, subject: string)

  datatype PreviousSuccess = NoPrevious | LatestSuccess

  datatype Schedule =
    | Once(at: I64)
    | FixedInterval(anchor: I64, everySeconds: I64)
    | Cron(expression: string, timezone: string)

  /** `snapshot` is what the stored profile text parses to, if it parses. */
  datatype Capability = Capability(version: U32, digest: string, snapshot: Option<Json>)

  datatype Target = Target(
    targetId: string,
    provider: string,
    connector: string,
    tenant: string,
    kind: string,
    identityDigest: string
  )

  datatype Mutation = Mutation(
    operation: string,
    owner: Principal,
    instruction: string,
    previousSuccess: PreviousSuccess,
    schedule: Schedule,
    capability: Capability,
    targets: seq<Target>,
    jobId: Option<string>,
    expectedGeneration: Option<I64>
  )

  datatype Lifecycle = Lifecycle(
    operation: string,
    owner: Principal,
    jobId: string,
    expectedGeneration: I64
  )

  // ---------------------------------------------------------------- numbers

  function NatText(n: nat): (text: string)
    ensures text != "" && forall i | 0 <= i < |text| :: Digit(text[i])
    ensures text[0] == '0' ==> n == 0
  {
    if n < 10 then ['0' + n as char] else NatText(n / 10) + ['0' + (n % 10) as char]
  }

  lemma NatTextIsLiteral(n: nat)
    ensures NumberLiteral(NatText(n)) && NumberLiteral("-" + NatText(n))
  {
    var text := NatText(n);
    assert DigitRun(text) == |text| && text[|text|..] == "";
    assert text[0] == '0' ==> |text| == 1;
    assert ("-" + text)[1..] == text;
  }

  function IntText(n: int): NumberText {
    NatTextIsLiteral(if n < 0 then -n else n);
    if n < 0 then "-" + NatText(-n) else NatText(n)
  }

  function ReadNat(text: string): nat
    requires forall i | 0 <= i < |text| :: Digit(text[i])
  {
    if text == "" then 0
    else
      var last := text[|text| - 1];
      assert Digit(last);
      10 * ReadNat(text[..|text| - 1]) + (last as int - '0' as int)
  }

  lemma {:induction false} NatTextReadsBack(n: nat)
    ensures ReadNat(NatText(n)) == n
  {
    var text := NatText(n);
    if n >= 10 {
      NatTextReadsBack(n / 10);
      assert text[..|text| - 1] == NatText(n / 10);
    } else {
      assert text[..|text| - 1] == "";
    }
  }

  /** A number is written in decimal, after a sign if it is negative. */
  lemma IntTextReadsBack(n: int)
    ensures if n < 0 then IntText(n)[0] == '-' && ReadNat(IntText(n)[1..]) == -n
            else IntText(n)[0] != '-' && ReadNat(IntText(n)) == n
  {
    NatTextReadsBack(if n < 0 then -n else n);
    assert n < 0 ==> IntText(n)[1..] == NatText(-n);
  }

  lemma IntTextIsInjective(m: int, n: int)
    ensures IntText(m) == IntText(n) <==> m == n
  {
    IntTextReadsBack(m);
    IntTextReadsBack(n);
  }

  function Int(n: int): Json { Number(IntText(n)) }

  // ---------------------------------------------------------------- the semantic object

  const PRINCIPAL_KEYS := ["kind", "provider", "tenant", "subject"]
  const ONCE_KEYS := ["kind", "at"]
  const INTERVAL_KEYS := ["kind", "anchor", "every_seconds"]
  const CRON_KEYS := ["kind", "expression", "timezone"]
  const DEFINITION_V1_KEYS := ["version", "instruction"]
  const DEFINITION_V2_KEYS := ["version", "instruction", "previous_success"]
  const CAPABILITY_KEYS := ["version", "digest", "snapshot"]
  const TARGET_KEYS := ["provider", "connector", "tenant", "kind", "identity_digest"]
  const MUTATION_KEYS :=
    ["operation", "owner", "job_id", "expected_generation", "definition", "schedule", "capability",
     "targets"]
  const LIFECYCLE_KEYS := ["operation", "owner", "job_id", "expected_generation"]

  const JOB_KEYS := ["owner", "request_id"]

  function Record(keys: seq<string>, values: seq<Json>): Json
    requires |keys| == |values|
  {
    Object(seq(|keys|, i requires 0 <= i < |keys| => Entry(keys[i], values[i])))
  }

  function PrincipalValues(p: Principal): (r: seq<Json>)
    ensures |r| == |PRINCIPAL_KEYS|
  {
    [Str(p.kind), Str(p.provider), Str(p.tenant), Str(p.subject)]
  }

  function PrincipalJson(p: Principal): Json { Record(PRINCIPAL_KEYS, PrincipalValues(p)) }

  function ScheduleJson(s: Schedule): Json {
    match s
    case Once(at) => Record(ONCE_KEYS, [Str("once"), Int(at)])
    case FixedInterval(anchor, everySeconds) =>
      Record(INTERVAL_KEYS, [Str("fixed_interval"), Int(anchor), Int(everySeconds)])
    case Cron(expression, timezone) =>
      Record(CRON_KEYS, [Str("cron"), Str(expression), Str(timezone)])
  }

  function ScheduleKeys(s: Schedule): seq<string> {
    match s
    case Once(_) => ONCE_KEYS
    case FixedInterval(_, _) => INTERVAL_KEYS
    case Cron(_, _) => CRON_KEYS
  }

  /** Without a previous-success policy the definition keeps its version-1 form. */
  function DefinitionJson(instruction: string, previous: PreviousSuccess): Json {
    match previous
    case NoPrevious => Record(DEFINITION_V1_KEYS, [Int(SNAPSHOT_VERSION), Str(instruction)])
    case LatestSuccess =>
      Record(DEFINITION_V2_KEYS, [Int(DEFINITION_VERSION), Str(instruction),
                                  Record(["kind"], [Str("latest_success")])])
  }

  function CapabilityJson(c: Capability): Json
    requires c.snapshot.Some?
  {
    Record(CAPABILITY_KEYS, [Int(c.version), Str(c.digest), c.snapshot.value])
  }

  function TargetValues(t: Target): (r: seq<Json>)
    ensures |r| == |TARGET_KEYS|
  {
    [Str(t.provider), Str(t.connector), Str(t.tenant), Str(t.kind), Str(t.identityDigest)]
  }

  function TargetJson(t: Target): Json { Record(TARGET_KEYS, TargetValues(t)) }

  function TargetsJson(targets: seq<Target>): Json {
    Array(seq(|targets|, i requires 0 <= i < |targets| => TargetJson(targets[i])))
  }

  function OptionalString(o: Option<string>): Json {
    match o case None => Null case Some(s) => Str(s)
  }

  function OptionalInt(o: Option<I64>): Json {
    match o case None => Null case Some(n) => Int(n)
  }

  function MutationValues(m: Mutation): (r: seq<Json>)
    requires m.capability.snapshot.Some?
    ensures |r| == |MUTATION_KEYS|
  {
    [Str(m.operation), PrincipalJson(m.owner), OptionalString(m.jobId),
     OptionalInt(m.expectedGeneration), DefinitionJson(m.instruction, m.previousSuccess),
     ScheduleJson(m.schedule), CapabilityJson(m.capability), TargetsJson(m.targets)]
  }

  /** Refused when the capability profile does not parse. */
  function MutationSemantics(m: Mutation): Option<Json> {
    if m.capability.snapshot.None? then None
    else Some(Record(MUTATION_KEYS, MutationValues(m)))
  }

  function LifecycleValues(l: Lifecycle): (r: seq<Json>)
    ensures |r| == |LIFECYCLE_KEYS|
  {
    [Str(l.operation), PrincipalJson(l.owner), Str(l.jobId), Int(l.expectedGeneration)]
  }

  function LifecycleSemantics(l: Lifecycle): Json { Record(LIFECYCLE_KEYS, LifecycleValues(l)) }

  // ---------------------------------------------------------------- records

  lemma RecordKeys(keys: seq<string>, values: seq<Json>)
    requires |keys| == |values|
    ensures Keys(Record(keys, values).members) == keys
  {
  }

  /** Records with the same keys mean the same exactly when their values do, place by place. */
  lemma RecordsAgree(keys: seq<string>, a: seq<Json>, b: seq<Json>)
    requires |keys| == |a| == |b| && Distinct(keys)
    ensures Denote(Record(keys, a)) == Denote(Record(keys, b)) <==>
            forall i | 0 <= i < |keys| :: Denote(a[i]) == Denote(b[i])
  {
    RecordKeys(keys, a);
    RecordKeys(keys, b);
    MeaningIsFields(Record(keys, a).members);
    MeaningIsFields(Record(keys, b).members);
    SameFieldsByPlace(keys, a, b, Denote);
  }

  lemma SameFieldsByPlace(keys: seq<string>, a: seq<Json>, b: seq<Json>, g: Json -> Value)
    requires |keys| == |a| == |b| && Distinct(keys)
    ensures Fields(Record(keys, a).members, g) == Fields(Record(keys, b).members, g) <==>
            forall i | 0 <= i < |keys| :: g(a[i]) == g(b[i])
  {
    var p, q := Record(keys, a).members, Record(keys, b).members;
    assert Keys(p) == keys && Keys(q) == keys;
    forall i | 0 <= i < |keys|
      ensures keys[i] in Keys(p) && IndexOf(p, keys[i]) == i && IndexOf(q, keys[i]) == i
    {
      IndexOfDistinct(p, i);
      IndexOfDistinct(q, i);
    }
    if Fields(p, g) == Fields(q, g) {
      forall i | 0 <= i < |keys| ensures g(a[i]) == g(b[i]) {
        assert Fields(p, g)[keys[i]] == Fields(q, g)[keys[i]];
      }
    }
  }

  /** A key that only one record has tells them apart. */
  lemma ExtraKeyDiffers(k: seq<string>, a: seq<Json>, l: seq<string>, b: seq<Json>, key: string)
    requires |k| == |a| && |l| == |b| && key in k && key !in l
    ensures Denote(Record(k, a)) != Denote(Record(l, b))
  {
    RecordKeys(k, a);
    RecordKeys(l, b);
    MeaningIsFields(Record(k, a).members);
    MeaningIsFields(Record(l, b).members);
    assert key in Fields(Record(k, a).members, Denote);
    assert key !in Fields(Record(l, b).members, Denote);
  }

  lemma RecordIsWellFormed(keys: seq<string>, values: seq<Json>)
    requires |keys| == |values| && Distinct(keys)
    requires forall i | 0 <= i < |values| :: WellFormed(values[i])
    ensures WellFormed(Record(keys, values))
  {
    RecordKeys(keys, values);
  }

  lemma RecordTextsAgree(keys: seq<string>, a: seq<Json>, b: seq<Json>)
    requires |keys| == |a| == |b| && Distinct(keys)
    requires WellFormed(Record(keys, a)) && WellFormed(Record(keys, b))
    ensures CanonicalText(Record(keys, a)) == CanonicalText(Record(keys, b)) <==>
            forall i | 0 <= i < |keys| :: Denote(a[i]) == Denote(b[i])
  {
    RecordsAgree(keys, a, b);
    TextDecidesMeaning(Record(keys, a), Record(keys, b));
  }

  lemma ExtraKeyTextsDiffer(k: seq<string>, a: seq<Json>, l: seq<string>, b: seq<Json>, key: string)
    requires |k| == |a| && |l| == |b| && key in k && key !in l
    requires WellFormed(Record(k, a)) && WellFormed(Record(l, b))
    ensures CanonicalText(Record(k, a)) != CanonicalText(Record(l, b))
  {
    ExtraKeyDiffers(k, a, l, b, key);
    TextDecidesMeaning(Record(k, a), Record(l, b));
  }

  lemma FourPlaces(a: seq<Json>, b: seq<Json>, g: Json -> Value)
    requires |a| == |b| && |a| >= 4
    ensures (forall i | 0 <= i < |a| :: g(a[i]) == g(b[i])) <==>
            && g(a[0]) == g(b[0]) && g(a[1]) == g(b[1]) && g(a[2]) == g(b[2]) && g(a[3]) == g(b[3])
            && forall i | 4 <= i < |a| :: g(a[i]) == g(b[i])
  {
  }

  lemma PrincipalKeysAreDistinct()
    ensures Distinct(PRINCIPAL_KEYS)
  {
  }

  lemma ScheduleKeysAreDistinct(s: Schedule)
    ensures Distinct(ScheduleKeys(s))
  {
  }

  lemma DefinitionKeysAreDistinct()
    ensures Distinct(DEFINITION_V1_KEYS) && Distinct(DEFINITION_V2_KEYS)
  {
  }

  lemma CapabilityKeysAreDistinct()
    ensures Distinct(CAPABILITY_KEYS)
  {
  }

  lemma TargetKeysAreDistinct()
    ensures Distinct(TARGET_KEYS)
  {
  }

  lemma MutationKeysAreDistinct()
    ensures Distinct(MUTATION_KEYS)
  {
  }

  lemma LifecycleKeysAreDistinct()
    ensures Distinct(LIFECYCLE_KEYS)
  {
  }

  /** Strings are told apart by their meaning. */
  ghost predicate ReadsStrings(g: Json -> Value) {
    forall s, t :: g(Str(s)) == g(Str(t)) ==> s == t
  }

  lemma PrincipalPlaces(p: Principal, q: Principal, g: Json -> Value)
    requires ReadsStrings(g)
    ensures var a, b := PrincipalValues(p), PrincipalValues(q);
            (forall i | 0 <= i < |PRINCIPAL_KEYS| :: g(a[i]) == g(b[i])) <==> p == q
  {
    FourPlaces(PrincipalValues(p), PrincipalValues(q), g);
  }

  lemma PrincipalIsWellFormed(p: Principal)
    ensures WellFormed(PrincipalJson(p))
  {
    PrincipalKeysAreDistinct();
    RecordIsWellFormed(PRINCIPAL_KEYS, PrincipalValues(p));
  }

  lemma PrincipalsAgree(p: Principal, q: Principal)
    ensures Denote(PrincipalJson(p)) == Denote(PrincipalJson(q)) <==> p == q
  {
    PrincipalKeysAreDistinct();
    RecordsAgree(PRINCIPAL_KEYS, PrincipalValues(p), PrincipalValues(q));
    PrincipalPlaces(p, q, Denote);
  }

  lemma ScheduleIsWellFormed(s: Schedule)
    ensures WellFormed(ScheduleJson(s))
  {
    ScheduleKeysAreDistinct(s);
    match s
    case Once(at) => RecordIsWellFormed(ONCE_KEYS, [Str("once"), Int(at)]);
    case FixedInterval(anchor, every) =>
      RecordIsWellFormed(INTERVAL_KEYS, [Str("fixed_interval"), Int(anchor), Int(every)]);
    case Cron(expression, timezone) =>
      RecordIsWellFormed(CRON_KEYS, [Str("cron"), Str(expression), Str(timezone)]);
  }

  lemma OncesAgree(m: I64, n: I64)
    ensures Denote(ScheduleJson(Once(m))) == Denote(ScheduleJson(Once(n))) <==> m == n
  {
    ScheduleKeysAreDistinct(Once(m));
    var a, b := [Str("once"), Int(m)], [Str("once"), Int(n)];
    RecordsAgree(ONCE_KEYS, a, b);
    IntTextIsInjective(m, n);
    assert a[1] == Int(m);
  }

  lemma IntervalsAgree(s: Schedule, t: Schedule)
    requires s.FixedInterval? && t.FixedInterval?
    ensures Denote(ScheduleJson(s)) == Denote(ScheduleJson(t)) <==> s == t
  {
    ScheduleKeysAreDistinct(s);
    var a := [Str("fixed_interval"), Int(s.anchor), Int(s.everySeconds)];
    var b := [Str("fixed_interval"), Int(t.anchor), Int(t.everySeconds)];
    RecordsAgree(INTERVAL_KEYS, a, b);
    IntTextIsInjective(s.anchor, t.anchor);
    IntTextIsInjective(s.everySeconds, t.everySeconds);
    assert a[1] == Int(s.anchor) && a[2] == Int(s.everySeconds);
  }

  lemma CronsAgree(s: Schedule, t: Schedule)
    requires s.Cron? && t.Cron?
    ensures Denote(ScheduleJson(s)) == Denote(ScheduleJson(t)) <==> s == t
  {
    ScheduleKeysAreDistinct(s);
    var a := [Str("cron"), Str(s.expression), Str(s.timezone)];
    var b := [Str("cron"), Str(t.expression), Str(t.timezone)];
    RecordsAgree(CRON_KEYS, a, b);
    assert a[1] == Str(s.expression) && a[2] == Str(s.timezone);
  }

  lemma ScheduleIsRecord(s: Schedule) returns (values: seq<Json>)
    ensures |values| == |ScheduleKeys(s)| && ScheduleJson(s) == Record(ScheduleKeys(s), values)
  {
    match s
    case Once(at) => values := [Str("once"), Int(at)];
    case FixedInterval(anchor, every) =>
      values := [Str("fixed_interval"), Int(anchor), Int(every)];
    case Cron(expression, timezone) => values := [Str("cron"), Str(expression), Str(timezone)];
  }

  /** Schedules of different kinds have different keys. */
  lemma SchedulesDiffer(s: Schedule, t: Schedule)
    requires s.Once? != t.Once? || s.Cron? != t.Cron?
    ensures Denote(ScheduleJson(s)) != Denote(ScheduleJson(t))
  {
    var a := ScheduleIsRecord(s);
    var b := ScheduleIsRecord(t);
    var key := ScheduleKeys(s)[1];
    assert key in ScheduleKeys(s) && key !in ScheduleKeys(t);
    ExtraKeyDiffers(ScheduleKeys(s), a, ScheduleKeys(t), b, key);
  }

  lemma SchedulesAgree(s: Schedule, t: Schedule)
    ensures Denote(ScheduleJson(s)) == Denote(ScheduleJson(t)) <==> s == t
  {
    match (s, t) {
      case (Once(m), Once(n)) => OncesAgree(m, n);
      case (FixedInterval(_, _), FixedInterval(_, _)) => IntervalsAgree(s, t);
      case (Cron(_, _), Cron(_, _)) => CronsAgree(s, t);
      case _ => SchedulesDiffer(s, t);
    }
  }

  lemma DefinitionsAgree(i: string, p: PreviousSuccess, j: string, q: PreviousSuccess)
    ensures Denote(DefinitionJson(i, p)) == Denote(DefinitionJson(j, q)) <==> i == j && p == q
    ensures WellFormed(DefinitionJson(i, p))
  {
    DefinitionKeysAreDistinct();
    var kind := Record(["kind"], [Str("latest_success")]);
    RecordIsWellFormed(["kind"], [Str("latest_success")]);
    var a1, b1 := [Int(SNAPSHOT_VERSION), Str(i)], [Int(SNAPSHOT_VERSION), Str(j)];
    var a2, b2 := [Int(DEFINITION_VERSION), Str(i), kind], [Int(DEFINITION_VERSION), Str(j), kind];
    RecordIsWellFormed(DEFINITION_V1_KEYS, a1);
    RecordIsWellFormed(DEFINITION_V2_KEYS, a2);
    if p == q == NoPrevious {
      RecordsAgree(DEFINITION_V1_KEYS, a1, b1);
      assert a1[1] == Str(i);
    } else if p == q {
      RecordsAgree(DEFINITION_V2_KEYS, a2, b2);
      assert a2[1] == Str(i);
    } else {
      VersionsNeverMeet(i, j);
      VersionsNeverMeet(j, i);
    }
  }

  /** The legacy version-1 definition is never taken for a version-2 one. */
  lemma VersionsNeverMeet(i: string, j: string)
    ensures Denote(DefinitionJson(i, NoPrevious)) != Denote(DefinitionJson(j, LatestSuccess))
  {
    var kind := Record(["kind"], [Str("latest_success")]);
    var key := DEFINITION_V2_KEYS[2];
    assert key in DEFINITION_V2_KEYS && key !in DEFINITION_V1_KEYS;
    ExtraKeyDiffers(DEFINITION_V2_KEYS, [Int(DEFINITION_VERSION), Str(j), kind],
                    DEFINITION_V1_KEYS, [Int(SNAPSHOT_VERSION), Str(i)], key);
  }

  /** The same version and digest, and profiles that denote the same value. */
  ghost predicate SameCapability(c: Capability, d: Capability)
    requires c.snapshot.Some? && d.snapshot.Some?
  {
    && c.version == d.version && c.digest == d.digest
    && Denote(c.snapshot.value) == Denote(d.snapshot.value)
  }

  lemma CapabilitiesAgree(c: Capability, d: Capability)
    requires c.snapshot.Some? && d.snapshot.Some?
    ensures Denote(CapabilityJson(c)) == Denote(CapabilityJson(d)) <==> SameCapability(c, d)
  {
    CapabilityKeysAreDistinct();
    var a := [Int(c.version), Str(c.digest), c.snapshot.value];
    var b := [Int(d.version), Str(d.digest), d.snapshot.value];
    RecordsAgree(CAPABILITY_KEYS, a, b);
    IntTextIsInjective(c.version, d.version);
    assert a[0] == Int(c.version) && a[1] == Str(c.digest) && a[2] == c.snapshot.value;
  }

  lemma CapabilityIsWellFormed(c: Capability)
    requires c.snapshot.Some? && WellFormed(c.snapshot.value)
    ensures WellFormed(CapabilityJson(c))
  {
    CapabilityKeysAreDistinct();
    RecordIsWellFormed(CAPABILITY_KEYS, [Int(c.version), Str(c.digest), c.snapshot.value]);
  }

  /** The part of a target that identifies it; the target id is left out. */
  predicate SameTarget(t: Target, u: Target) {
    && t.provider == u.provider && t.connector == u.connector && t.tenant == u.tenant
    && t.kind == u.kind && t.identityDigest == u.identityDigest
  }

  predicate SameTargets(t: seq<Target>, u: seq<Target>) {
    |t| == |u| && forall i | 0 <= i < |t| :: SameTarget(t[i], u[i])
  }

  lemma TargetPlaces(t: Target, u: Target, g: Json -> Value)
    requires ReadsStrings(g)
    ensures var a, b := TargetValues(t), TargetValues(u);
            (forall i | 0 <= i < |TARGET_KEYS| :: g(a[i]) == g(b[i])) <==> SameTarget(t, u)
  {
    var a, b := TargetValues(t), TargetValues(u);
    FourPlaces(a, b, g);
    assert (forall i | 4 <= i < 5 :: g(a[i]) == g(b[i])) <==> g(a[4]) == g(b[4]);
  }

  lemma TargetIsWellFormed(t: Target)
    ensures WellFormed(TargetJson(t))
  {
    TargetKeysAreDistinct();
    RecordIsWellFormed(TARGET_KEYS, TargetValues(t));
  }

  lemma TargetAgrees(t: Target, u: Target)
    ensures Denote(TargetJson(t)) == Denote(TargetJson(u)) <==> SameTarget(t, u)
  {
    TargetKeysAreDistinct();
    RecordsAgree(TARGET_KEYS, TargetValues(t), TargetValues(u));
    TargetPlaces(t, u, Denote);
  }

  lemma TargetsAgree(t: seq<Target>, u: seq<Target>)
    ensures Denote(TargetsJson(t)) == Denote(TargetsJson(u)) <==> SameTargets(t, u)
    ensures WellFormed(TargetsJson(t))
  {
    var a, b := Denote(TargetsJson(t)).elements, Denote(TargetsJson(u)).elements;
    forall i | 0 <= i < |t|
      ensures WellFormed(TargetJson(t[i])) && a[i] == Denote(TargetJson(t[i]))
    {
      TargetIsWellFormed(t[i]);
    }
    forall i | 0 <= i < |t| && i < |u| ensures a[i] == b[i] <==> SameTarget(t[i], u[i]) {
      TargetAgrees(t[i], u[i]);
    }
    if SameTargets(t, u) {
      assert a == b;
    }
  }

  lemma OptionsAgree(s: Option<string>, t: Option<string>, m: Option<I64>, n: Option<I64>)
    ensures Denote(OptionalString(s)) == Denote(OptionalString(t)) <==> s == t
    ensures Denote(OptionalInt(m)) == Denote(OptionalInt(n)) <==> m == n
  {
    if m.Some? && n.Some? {
      IntTextIsInjective(m.value, n.value);
    }
  }

  // ---------------------------------------------------------------- the preimage theorems

  /** Everything a create or update request is identified by. */
  ghost predicate SameMutation(m: Mutation, n: Mutation)
    requires m.capability.snapshot.Some? && n.capability.snapshot.Some?
  {
    && m.operation == n.operation
    && m.owner == n.owner
    && m.jobId == n.jobId
    && m.expectedGeneration == n.expectedGeneration
    && m.instruction == n.instruction
    && m.previousSuccess == n.previousSuccess
    && m.schedule == n.schedule
    && SameCapability(m.capability, n.capability)
    && SameTargets(m.targets, n.targets)
  }

  /** Agreement on the value at one place of the object. */
  ghost predicate SameAt(m: Mutation, n: Mutation, i: nat)
    requires m.capability.snapshot.Some? && n.capability.snapshot.Some?
  {
    match i
    case 0 => m.operation == n.operation
    case 1 => m.owner == n.owner
    case 2 => m.jobId == n.jobId
    case 3 => m.expectedGeneration == n.expectedGeneration
    case 4 => m.instruction == n.instruction && m.previousSuccess == n.previousSuccess
    case 5 => m.schedule == n.schedule
    case 6 => SameCapability(m.capability, n.capability)
    case _ => SameTargets(m.targets, n.targets)
  }

  function ValueAt(m: Mutation, i: nat): Json
    requires m.capability.snapshot.Some?
  {
    match i
    case 0 => Str(m.operation)
    case 1 => PrincipalJson(m.owner)
    case 2 => OptionalString(m.jobId)
    case 3 => OptionalInt(m.expectedGeneration)
    case 4 => DefinitionJson(m.instruction, m.previousSuccess)
    case 5 => ScheduleJson(m.schedule)
    case 6 => CapabilityJson(m.capability)
    case _ => TargetsJson(m.targets)
  }

  lemma ValuesByPlace(m: Mutation, i: nat)
    requires m.capability.snapshot.Some? && i < |MUTATION_KEYS|
    ensures MutationValues(m)[i] == ValueAt(m, i)
  {
  }

  lemma PlaceIsWellFormed(m: Mutation, i: nat)
    requires m.capability.snapshot.Some? && WellFormed(m.capability.snapshot.value)
    requires i < |MUTATION_KEYS|
    ensures WellFormed(ValueAt(m, i))
  {
    match i {
      case 1 => PrincipalIsWellFormed(m.owner);
      case 4 =>
        DefinitionsAgree(m.instruction, m.previousSuccess, m.instruction, m.previousSuccess);
      case 5 => ScheduleIsWellFormed(m.schedule);
      case 6 => CapabilityIsWellFormed(m.capability);
      case 7 => TargetsAgree(m.targets, m.targets);
      case _ =>
    }
  }

  lemma MutationIsWellFormed(m: Mutation)
    requires m.capability.snapshot.Some? && WellFormed(m.capability.snapshot.value)
    ensures WellFormed(Record(MUTATION_KEYS, MutationValues(m)))
  {
    MutationKeysAreDistinct();
    forall i | 0 <= i < |MUTATION_KEYS| ensures WellFormed(MutationValues(m)[i]) {
      ValuesByPlace(m, i);
      PlaceIsWellFormed(m, i);
    }
    RecordIsWellFormed(MUTATION_KEYS, MutationValues(m));
  }

  lemma PlaceAgrees(m: Mutation, n: Mutation, i: nat)
    requires m.capability.snapshot.Some? && n.capability.snapshot.Some? && i < |MUTATION_KEYS|
    ensures Denote(ValueAt(m, i)) == Denote(ValueAt(n, i)) <==> SameAt(m, n, i)
  {
    match i {
      case 0 =>
      case 1 => PrincipalsAgree(m.owner, n.owner);
      case 2 => OptionsAgree(m.jobId, n.jobId, m.expectedGeneration, n.expectedGeneration);
      case 3 => OptionsAgree(m.jobId, n.jobId, m.expectedGeneration, n.expectedGeneration);
      case 4 =>
        DefinitionsAgree(m.instruction, m.previousSuccess, n.instruction, n.previousSuccess);
      case 5 => SchedulesAgree(m.schedule, n.schedule);
      case 6 => CapabilitiesAgree(m.capability, n.capability);
      case _ => TargetsAgree(m.targets, n.targets);
    }
  }

  lemma PlacesCoverMutation(m: Mutation, n: Mutation)
    requires m.capability.snapshot.Some? && n.capability.snapshot.Some?
    ensures (forall i | 0 <= i < |MUTATION_KEYS| :: SameAt(m, n, i)) <==> SameMutation(m, n)
  {
    if forall i | 0 <= i < |MUTATION_KEYS| :: SameAt(m, n, i) {
      assert SameAt(m, n, 0) && SameAt(m, n, 1) && SameAt(m, n, 2) && SameAt(m, n, 3);
      assert SameAt(m, n, 4) && SameAt(m, n, 5) && SameAt(m, n, 6) && SameAt(m, n, 7);
    }
  }

  lemma PlacesAgree(m: Mutation, n: Mutation)
    requires m.capability.snapshot.Some? && n.capability.snapshot.Some?
    ensures var a, b := MutationValues(m), MutationValues(n);
            (forall i | 0 <= i < |MUTATION_KEYS| :: Denote(a[i]) == Denote(b[i])) <==>
            SameMutation(m, n)
  {
    forall i | 0 <= i < |MUTATION_KEYS|
      ensures Denote(MutationValues(m)[i]) == Denote(MutationValues(n)[i]) <==> SameAt(m, n, i)
    {
      ValuesByPlace(m, i);
      ValuesByPlace(n, i);
      PlaceAgrees(m, n, i);
    }
    PlacesCoverMutation(m, n);
  }

  /** The profile a mutation carries parsed, with each key once. */
  ghost predicate Parsed(m: Mutation) {
    m.capability.snapshot.Some? && WellFormed(m.capability.snapshot.value)
  }

  /**
  Two create or update requests are digested over the same text exactly when they agree on
  operation, owner, job, generation, instruction, previous-success policy, schedule, capability
  and the identities of their targets, in order.
  */
  lemma PreimageIsFaithful(m: Mutation, n: Mutation)
    requires Parsed(m) && Parsed(n)
    ensures MutationSemantics(m).Some? && MutationSemantics(n).Some?
    ensures CanonicalText(MutationSemantics(m).value) == CanonicalText(MutationSemantics(n).value)
            <==> SameMutation(m, n)
  {
    MutationIsWellFormed(m);
    MutationIsWellFormed(n);
    MutationKeysAreDistinct();
    RecordTextsAgree(MUTATION_KEYS, MutationValues(m), MutationValues(n));
    PlacesAgree(m, n);
  }

  lemma LifecycleIsWellFormed(l: Lifecycle)
    ensures WellFormed(LifecycleSemantics(l))
  {
    LifecycleKeysAreDistinct();
    PrincipalIsWellFormed(l.owner);
    RecordIsWellFormed(LIFECYCLE_KEYS, LifecycleValues(l));
  }

  /** The same for pause, resume and delete. */
  lemma LifecyclePreimageIsFaithful(l: Lifecycle, k: Lifecycle)
    ensures CanonicalText(LifecycleSemantics(l)) == CanonicalText(LifecycleSemantics(k)) <==> l == k
  {
    LifecycleIsWellFormed(l);
    LifecycleIsWellFormed(k);
    LifecycleKeysAreDistinct();
    RecordTextsAgree(LIFECYCLE_KEYS, LifecycleValues(l), LifecycleValues(k));
    LifecyclePlaces(l, k);
  }

  lemma LifecyclePlaces(l: Lifecycle, k: Lifecycle)
    ensures var a, b := LifecycleValues(l), LifecycleValues(k);
            (forall i | 0 <= i < |LIFECYCLE_KEYS| :: Denote(a[i]) == Denote(b[i])) <==> l == k
  {
    FourPlaces(LifecycleValues(l), LifecycleValues(k), Denote);
    PrincipalsAgree(l.owner, k.owner);
    IntTextIsInjective(l.expectedGeneration, k.expectedGeneration);
  }

  /** And no lifecycle request is ever digested over a create or update request's text. */
  lemma LifecycleNeverMeetsMutation(l: Lifecycle, m: Mutation)
    requires Parsed(m)
    ensures CanonicalText(LifecycleSemantics(l)) != CanonicalText(MutationSemantics(m).value)
  {
    LifecycleIsWellFormed(l);
    MutationIsWellFormed(m);
    DefinitionKeyIsExtra();
    ExtraKeyTextsDiffer(MUTATION_KEYS, MutationValues(m), LIFECYCLE_KEYS, LifecycleValues(l),
                        "definition");
  }

  lemma DefinitionKeyIsExtra()
    ensures "definition" in MUTATION_KEYS && "definition" !in LIFECYCLE_KEYS
  {
    assert MUTATION_KEYS[4] == "definition";
  }

  // ---------------------------------------------------------------- from request to preimage

  datatype CreateRequest = CreateRequest(
    requestId: string,
    instruction: string,
    previousSuccess: PreviousSuccess,
    schedule: Schedule,
    now: I64
  )

  datatype UpdateRequest = UpdateRequest(
    requestId: string,
    jobId: string,
    expectedGeneration: I64,
    instruction: string,
    previousSuccess: PreviousSuccess,
    schedule: Schedule,
    now: I64
  )

  /** What authorization and resolution supply. */
  datatype Resolution = Resolution(owner: Principal, capability: Capability, targets: seq<Target>)

  /** Hexadecimal SHA-256, any function that yields 64 characters. */
  type Hex = s: string | |s| == 64 witness seq(64, _ => '0')

  function JobPreimage(owner: Principal, requestId: string): Json {
    Record(JOB_KEYS, [PrincipalJson(owner), Str(requestId)])
  }

  function JobId(owner: Principal, requestId: string, hash: string -> Hex): string {
    "job_" + hash(CanonicalText(JobPreimage(owner, requestId)))[..32]
  }

  function TargetPreimage(jobId: string, ordinal: nat, t: Target): Json {
    Record(["job_id", "ordinal", "identity_digest"],
           [Str(jobId), Int(ordinal), Str(t.identityDigest)])
  }

  /** Targets get ids of their job; nothing else about them changes. */
  function ScopeTargets(jobId: string, targets: seq<Target>, hash: string -> Hex): seq<Target> {
    seq(|targets|, i requires 0 <= i < |targets| =>
      targets[i].(targetId :=
        "target_" + hash(CanonicalText(TargetPreimage(jobId, i, targets[i])))[..32]))
  }

  function CreateMutation(r: CreateRequest, w: Resolution, hash: string -> Hex): Mutation {
    var jobId := JobId(w.owner, r.requestId, hash);
    Mutation("create", w.owner, r.instruction, r.previousSuccess, r.schedule, w.capability,
             ScopeTargets(jobId, w.targets, hash), None, None)
  }

  function UpdateMutation(r: UpdateRequest, w: Resolution, hash: string -> Hex): Mutation {
    Mutation("update", w.owner, r.instruction, r.previousSuccess, r.schedule, w.capability,
             ScopeTargets(r.jobId, w.targets, hash), Some(r.jobId), Some(r.expectedGeneration))
  }

  lemma ScopingKeepsIdentities(j: string, t: seq<Target>, k: string, u: seq<Target>,
                               hash: string -> Hex)
    ensures SameTargets(ScopeTargets(j, t, hash), ScopeTargets(k, u, hash)) <==> SameTargets(t, u)
  {
    var a, b := ScopeTargets(j, t, hash), ScopeTargets(k, u, hash);
    forall i | 0 <= i < |t| && i < |u| ensures SameTarget(a[i], b[i]) <==> SameTarget(t[i], u[i]) {
      assert SameTarget(a[i], t[i]) && SameTarget(b[i], u[i]);
    }
  }

  /**
  Two create requests share a digest text exactly when what they ask for is the same: neither
  the time, nor the request id, nor the ids derived from it, play any part.
  */
  lemma CreatePreimage(r: CreateRequest, w: Resolution, s: CreateRequest, x: Resolution,
                       hash: string -> Hex)
    requires Parsed(CreateMutation(r, w, hash)) && Parsed(CreateMutation(s, x, hash))
    ensures var m, n := CreateMutation(r, w, hash), CreateMutation(s, x, hash);
            CanonicalText(MutationSemantics(m).value) == CanonicalText(MutationSemantics(n).value)
            <==>
            && w.owner == x.owner && r.instruction == s.instruction
            && r.previousSuccess == s.previousSuccess && r.schedule == s.schedule
            && SameCapability(w.capability, x.capability) && SameTargets(w.targets, x.targets)
  {
    PreimageIsFaithful(CreateMutation(r, w, hash), CreateMutation(s, x, hash));
    ScopingKeepsIdentities(JobId(w.owner, r.requestId, hash), w.targets,
                           JobId(x.owner, s.requestId, hash), x.targets, hash);
  }

  lemma UpdatePreimage(r: UpdateRequest, w: Resolution, s: UpdateRequest, x: Resolution,
                       hash: string -> Hex)
    requires Parsed(UpdateMutation(r, w, hash)) && Parsed(UpdateMutation(s, x, hash))
    ensures var m, n := UpdateMutation(r, w, hash), UpdateMutation(s, x, hash);
            CanonicalText(MutationSemantics(m).value) == CanonicalText(MutationSemantics(n).value)
            <==>
            && r.jobId == s.jobId && r.expectedGeneration == s.expectedGeneration
            && w.owner == x.owner && r.instruction == s.instruction
            && r.previousSuccess == s.previousSuccess && r.schedule == s.schedule
            && SameCapability(w.capability, x.capability) && SameTargets(w.targets, x.targets)
  {
    PreimageIsFaithful(UpdateMutation(r, w, hash), UpdateMutation(s, x, hash));
    ScopingKeepsIdentities(r.jobId, w.targets, s.jobId, x.targets, hash);
  }

  /** A created job is named after its owner and request id, and nothing else. */
  lemma JobPreimageIsFaithful(p: Principal, r: string, q: Principal, s: string)
    ensures CanonicalText(JobPreimage(p, r)) == CanonicalText(JobPreimage(q, s)) <==>
            p == q && r == s
  {
    var a, b := [PrincipalJson(p), Str(r)], [PrincipalJson(q), Str(s)];
    JobPreimageIsWellFormed(p, r);
    JobPreimageIsWellFormed(q, s);
    RecordTextsAgree(JOB_KEYS, a, b);
    JobPlaces(p, r, q, s);
  }

  lemma JobPlaces(p: Principal, r: string, q: Principal, s: string)
    ensures var a, b := [PrincipalJson(p), Str(r)], [PrincipalJson(q), Str(s)];
            (forall i | 0 <= i < |JOB_KEYS| :: Denote(a[i]) == Denote(b[i])) <==> p == q && r == s
  {
    var a, b := [PrincipalJson(p), Str(r)], [PrincipalJson(q), Str(s)];
    PrincipalsAgree(p, q);
    assert a[0] == PrincipalJson(p) && b[0] == PrincipalJson(q);
    assert Denote(a[1]) == Denote(b[1]) <==> r == s;
  }

  lemma JobPreimageIsWellFormed(p: Principal, r: string)
    ensures Distinct(JOB_KEYS) && WellFormed(JobPreimage(p, r))
  {
    PrincipalIsWellFormed(p);
    RecordIsWellFormed(JOB_KEYS, [PrincipalJson(p), Str(r)]);
  }
}
