/**
What the digested objects say, field by field: the record each request denotes, written down as a
value, without reference to how the JSON objects are put together.
*/
module DigestLayout {
  import opened MachineInts
  import opened CanonicalJson
  import opened JsonText
  import opened JsonReader
  import opened DigestPreimage

  // ---------------------------------------------------------------- the records meant

  function TextValue(s: string): Value { StringValue(s) }

  function WholeValue(n: int): Value { NumberValue(IntText(n)) }

  function PrincipalRecord(p: Principal): map<string, Value> {
    map["kind" := TextValue(p.kind), "provider" := TextValue(p.provider),
        "tenant" := TextValue(p.tenant), "subject" := TextValue(p.subject)]
  }

  function ScheduleRecord(s: Schedule): map<string, Value> {
    match s
    case Once(at) => map["kind" := TextValue("once"), "at" := WholeValue(at)]
    case FixedInterval(anchor, every) =>
      map["kind" := TextValue("fixed_interval"), "anchor" := WholeValue(anchor),
          "every_seconds" := WholeValue(every)]
    case Cron(expression, timezone) =>
      map["kind" := TextValue("cron"), "expression" := TextValue(expression),
          "timezone" := TextValue(timezone)]
  }

  /** The legacy form, version 1, knows no previous-success policy. */
  function DefinitionRecord(instruction: string, previous: PreviousSuccess): map<string, Value> {
    match previous
    case NoPrevious =>
      map["version" := NumberValue("1"), "instruction" := TextValue(instruction)]
    case LatestSuccess =>
      map["version" := NumberValue("2"), "instruction" := TextValue(instruction),
          "previous_success" := RecordValue(map["kind" := TextValue("latest_success")])]
  }

  function CapabilityRecord(c: Capability): map<string, Value>
    requires c.snapshot.Some?
  {
    map["version" := WholeValue(c.version), "digest" := TextValue(c.digest),
        "snapshot" := Denote(c.snapshot.value)]
  }

  function TargetRecord(t: Target): map<string, Value> {
    map["provider" := TextValue(t.provider), "connector" := TextValue(t.connector),
        "tenant" := TextValue(t.tenant), "kind" := TextValue(t.kind),
        "identity_digest" := TextValue(t.identityDigest)]
  }

  // ---------------------------------------------------------------- records, generically

  /** The map has exactly these keys, each with the meaning of the value at its place. */
  ghost predicate Tabulates(f: map<string, Value>, keys: seq<string>, values: seq<Json>,
                            g: Json -> Value)
    requires |keys| == |values|
  {
    && (forall key :: key in f <==> key in keys)
    && forall i | 0 <= i < |keys| :: f[keys[i]] == g(values[i])
  }

  lemma RecordFields(keys: seq<string>, values: seq<Json>, g: Json -> Value)
    requires |keys| == |values| && Distinct(keys)
    ensures Tabulates(Fields(Record(keys, values).members, g), keys, values, g)
  {
    var members := Record(keys, values).members;
    assert Keys(members) == keys;
    forall i | 0 <= i < |keys| ensures Fields(members, g)[keys[i]] == g(values[i]) {
      IndexOfDistinct(members, i);
    }
  }

  lemma RecordMeans(keys: seq<string>, values: seq<Json>)
    requires |keys| == |values|
    ensures Denote(Record(keys, values))
            == RecordValue(Fields(Record(keys, values).members, Denote))
  {
    MeaningIsFields(Record(keys, values).members);
  }

  lemma TablesMerge(f: map<string, Value>, a: map<string, Value>, b: map<string, Value>,
                    keys: seq<string>, values: seq<Json>, n: nat, g: Json -> Value)
    requires |keys| == |values| && n <= |keys| && Distinct(keys)
    requires Tabulates(f, keys, values, g)
    requires Tabulates(a, keys[..n], values[..n], g) && Tabulates(b, keys[n..], values[n..], g)
    ensures f == a + b
  {
    forall key | key in f ensures key in a + b && f[key] == (a + b)[key] {
      var i :| 0 <= i < |keys| && keys[i] == key;
      if i < n {
        assert keys[..n][i] == key && key !in keys[n..];
      } else {
        assert keys[n..][i - n] == key;
      }
    }
  }

  /** A record's fields are those of its first places and those of the rest. */
  lemma FieldsSplit(keys: seq<string>, values: seq<Json>, n: nat, g: Json -> Value)
    requires |keys| == |values| && n <= |keys| && Distinct(keys)
    ensures Fields(Record(keys, values).members, g)
            == Fields(Record(keys[..n], values[..n]).members, g)
             + Fields(Record(keys[n..], values[n..]).members, g)
  {
    RecordFields(keys, values, g);
    RecordFields(keys[..n], values[..n], g);
    RecordFields(keys[n..], values[n..], g);
    TablesMerge(Fields(Record(keys, values).members, g),
                Fields(Record(keys[..n], values[..n]).members, g),
                Fields(Record(keys[n..], values[n..]).members, g), keys, values, n, g);
  }

  lemma OneField(keys: seq<string>, values: seq<Json>, g: Json -> Value)
    requires |keys| == |values| == 1
    ensures Fields(Record(keys, values).members, g) == map[keys[0] := g(values[0])]
  {
    RecordFields(keys, values, g);
  }

  lemma MergeOne<K, V>(fields: map<K, V>, key: K, value: V)
    ensures fields + map[key := value] == fields[key := value]
  {
  }

  lemma LastField(keys: seq<string>, values: seq<Json>, n: nat, g: Json -> Value)
    requires |keys| == |values| == n + 1 && Distinct(keys)
    ensures Fields(Record(keys, values).members, g)
            == Fields(Record(keys[..n], values[..n]).members, g)[keys[n] := g(values[n])]
  {
    FieldsSplit(keys, values, n, g);
    OneField(keys[n..], values[n..], g);
    MergeOne(Fields(Record(keys[..n], values[..n]).members, g), keys[n], g(values[n]));
  }

  lemma TwoFields(keys: seq<string>, values: seq<Json>, g: Json -> Value)
    requires |keys| == |values| == 2 && Distinct(keys)
    ensures Fields(Record(keys, values).members, g)
            == map[keys[0] := g(values[0]), keys[1] := g(values[1])]
  {
    LastField(keys, values, 1, g);
    OneField(keys[..1], values[..1], g);
  }

  lemma ThreeFields(keys: seq<string>, values: seq<Json>, g: Json -> Value)
    requires |keys| == |values| == 3 && Distinct(keys)
    ensures Fields(Record(keys, values).members, g)
            == map[keys[0] := g(values[0]), keys[1] := g(values[1]), keys[2] := g(values[2])]
  {
    LastField(keys, values, 2, g);
    TwoFields(keys[..2], values[..2], g);
  }

  lemma FourFields(keys: seq<string>, values: seq<Json>, g: Json -> Value)
    requires |keys| == |values| == 4 && Distinct(keys)
    ensures Fields(Record(keys, values).members, g)
            == map[keys[0] := g(values[0]), keys[1] := g(values[1]), keys[2] := g(values[2]),
                   keys[3] := g(values[3])]
  {
    LastField(keys, values, 3, g);
    ThreeFields(keys[..3], values[..3], g);
  }

  lemma FiveFields(keys: seq<string>, values: seq<Json>, g: Json -> Value)
    requires |keys| == |values| == 5 && Distinct(keys)
    ensures Fields(Record(keys, values).members, g)
            == map[keys[0] := g(values[0]), keys[1] := g(values[1]), keys[2] := g(values[2]),
                   keys[3] := g(values[3]), keys[4] := g(values[4])]
  {
    LastField(keys, values, 4, g);
    FourFields(keys[..4], values[..4], g);
  }

  lemma EightFields(keys: seq<string>, values: seq<Json>, g: Json -> Value)
    requires |keys| == |values| == 8 && Distinct(keys)
    ensures Fields(Record(keys, values).members, g)
            == map[keys[0] := g(values[0]), keys[1] := g(values[1]), keys[2] := g(values[2]),
                   keys[3] := g(values[3])]
             + map[keys[4] := g(values[4]), keys[5] := g(values[5]), keys[6] := g(values[6]),
                   keys[7] := g(values[7])]
  {
    FieldsSplit(keys, values, 4, g);
    FourFields(keys[..4], values[..4], g);
    FourFields(keys[4..], values[4..], g);
  }

  lemma PrincipalMeans(p: Principal)
    ensures Denote(PrincipalJson(p)) == RecordValue(PrincipalRecord(p))
  {
    PrincipalKeysAreDistinct();
    RecordMeans(PRINCIPAL_KEYS, PrincipalValues(p));
    FourFields(PRINCIPAL_KEYS, PrincipalValues(p), Denote);
  }

  lemma OnceMeans(at: I64)
    ensures Denote(ScheduleJson(Once(at))) == RecordValue(ScheduleRecord(Once(at)))
  {
    ScheduleKeysAreDistinct(Once(at));
    RecordMeans(ONCE_KEYS, [Str("once"), Int(at)]);
    TwoFields(ONCE_KEYS, [Str("once"), Int(at)], Denote);
  }

  lemma IntervalMeans(anchor: I64, every: I64)
    ensures var s := FixedInterval(anchor, every);
            Denote(ScheduleJson(s)) == RecordValue(ScheduleRecord(s))
  {
    var values := [Str("fixed_interval"), Int(anchor), Int(every)];
    ScheduleKeysAreDistinct(FixedInterval(anchor, every));
    RecordMeans(INTERVAL_KEYS, values);
    ThreeFields(INTERVAL_KEYS, values, Denote);
  }

  lemma CronMeans(expression: string, timezone: string)
    ensures var s := Cron(expression, timezone);
            Denote(ScheduleJson(s)) == RecordValue(ScheduleRecord(s))
  {
    var values := [Str("cron"), Str(expression), Str(timezone)];
    ScheduleKeysAreDistinct(Cron(expression, timezone));
    RecordMeans(CRON_KEYS, values);
    ThreeFields(CRON_KEYS, values, Denote);
    assert Denote(values[0]) == TextValue("cron");
  }

  lemma ScheduleMeans(s: Schedule)
    ensures Denote(ScheduleJson(s)) == RecordValue(ScheduleRecord(s))
  {
    match s
    case Once(at) => OnceMeans(at);
    case FixedInterval(anchor, every) => IntervalMeans(anchor, every);
    case Cron(expression, timezone) => CronMeans(expression, timezone);
  }

  lemma LegacyDefinitionMeans(instruction: string)
    ensures Denote(DefinitionJson(instruction, NoPrevious))
            == RecordValue(DefinitionRecord(instruction, NoPrevious))
  {
    var values := [Int(SNAPSHOT_VERSION), Str(instruction)];
    DefinitionKeysAreDistinct();
    RecordMeans(DEFINITION_V1_KEYS, values);
    TwoFields(DEFINITION_V1_KEYS, values, Denote);
    assert Denote(values[0]) == NumberValue("1");
  }

  lemma PolicyMeans(kind: string)
    ensures Denote(Record(["kind"], [Str(kind)])) == RecordValue(map["kind" := TextValue(kind)])
  {
    RecordMeans(["kind"], [Str(kind)]);
    OneField(["kind"], [Str(kind)], Denote);
  }

  lemma CurrentDefinitionMeans(instruction: string)
    ensures Denote(DefinitionJson(instruction, LatestSuccess))
            == RecordValue(DefinitionRecord(instruction, LatestSuccess))
  {
    var policy := Record(["kind"], [Str("latest_success")]);
    var values := [Int(DEFINITION_VERSION), Str(instruction), policy];
    DefinitionKeysAreDistinct();
    RecordMeans(DEFINITION_V2_KEYS, values);
    ThreeFields(DEFINITION_V2_KEYS, values, Denote);
    PolicyMeans("latest_success");
    assert Denote(values[0]) == NumberValue("2");
  }

  /** Version 1 exactly without a previous-success policy. */
  lemma DefinitionMeans(instruction: string, previous: PreviousSuccess)
    ensures Denote(DefinitionJson(instruction, previous))
            == RecordValue(DefinitionRecord(instruction, previous))
  {
    match previous
    case NoPrevious => LegacyDefinitionMeans(instruction);
    case LatestSuccess => CurrentDefinitionMeans(instruction);
  }

  lemma CapabilityMeans(c: Capability)
    requires c.snapshot.Some?
    ensures Denote(CapabilityJson(c)) == RecordValue(CapabilityRecord(c))
  {
    var values := [Int(c.version), Str(c.digest), c.snapshot.value];
    CapabilityKeysAreDistinct();
    RecordMeans(CAPABILITY_KEYS, values);
    ThreeFields(CAPABILITY_KEYS, values, Denote);
  }

  lemma TargetMeans(t: Target)
    ensures Denote(TargetJson(t)) == RecordValue(TargetRecord(t))
  {
    TargetKeysAreDistinct();
    RecordMeans(TARGET_KEYS, TargetValues(t));
    FiveFields(TARGET_KEYS, TargetValues(t), Denote);
  }

  function TargetsValue(targets: seq<Target>): Value {
    ListValue(seq(|targets|, i requires 0 <= i < |targets| =>
      RecordValue(TargetRecord(targets[i]))))
  }

  lemma TargetsMean(targets: seq<Target>)
    ensures Denote(TargetsJson(targets)) == TargetsValue(targets)
  {
    var a, b := Denote(TargetsJson(targets)).elements, TargetsValue(targets).elements;
    forall i | 0 <= i < |targets| ensures a[i] == b[i] {
      TargetMeans(targets[i]);
    }
    assert a == b;
  }

  // ---------------------------------------------------------------- requests

  /** An absent job or generation is written as null. */
  function OptionalText(o: Option<string>): Value {
    if o.Some? then TextValue(o.value) else NullValue
  }

  function OptionalWhole(o: Option<I64>): Value {
    if o.Some? then WholeValue(o.value) else NullValue
  }

  function RequestRecord(operation: string, owner: Principal, jobId: Value, generation: Value)
    : map<string, Value>
  {
    map["operation" := TextValue(operation), "owner" := RecordValue(PrincipalRecord(owner)),
        "job_id" := jobId, "expected_generation" := generation]
  }

  function ContentRecord(instruction: string, previous: PreviousSuccess, schedule: Schedule,
                         capability: Capability, targets: seq<Target>): map<string, Value>
    requires capability.snapshot.Some?
  {
    map["definition" := RecordValue(DefinitionRecord(instruction, previous)),
        "schedule" := RecordValue(ScheduleRecord(schedule)),
        "capability" := RecordValue(CapabilityRecord(capability)),
        "targets" := TargetsValue(targets)]
  }

  /** Everything a create or update request is digested over. */
  function MutationRecord(m: Mutation): map<string, Value>
    requires m.capability.snapshot.Some?
  {
    RequestRecord(m.operation, m.owner, OptionalText(m.jobId), OptionalWhole(m.expectedGeneration))
    + ContentRecord(m.instruction, m.previousSuccess, m.schedule, m.capability, m.targets)
  }

  lemma RequestPlaces(m: Mutation, g: Json -> Value)
    requires m.capability.snapshot.Some?
    ensures var k, v := MUTATION_KEYS, MutationValues(m);
            map[k[0] := g(v[0]), k[1] := g(v[1]), k[2] := g(v[2]), k[3] := g(v[3])]
            == map["operation" := g(Str(m.operation)), "owner" := g(PrincipalJson(m.owner)),
                   "job_id" := g(OptionalString(m.jobId)),
                   "expected_generation" := g(OptionalInt(m.expectedGeneration))]
  {
  }

  lemma ContentPlaces(m: Mutation, g: Json -> Value)
    requires m.capability.snapshot.Some?
    ensures var k, v := MUTATION_KEYS, MutationValues(m);
            map[k[4] := g(v[4]), k[5] := g(v[5]), k[6] := g(v[6]), k[7] := g(v[7])]
            == map["definition" := g(DefinitionJson(m.instruction, m.previousSuccess)),
                   "schedule" := g(ScheduleJson(m.schedule)),
                   "capability" := g(CapabilityJson(m.capability)),
                   "targets" := g(TargetsJson(m.targets))]
  {
  }

  lemma MutationFields(m: Mutation, g: Json -> Value)
    requires m.capability.snapshot.Some?
    ensures Fields(Record(MUTATION_KEYS, MutationValues(m)).members, g)
            == map["operation" := g(Str(m.operation)), "owner" := g(PrincipalJson(m.owner)),
                   "job_id" := g(OptionalString(m.jobId)),
                   "expected_generation" := g(OptionalInt(m.expectedGeneration))]
             + map["definition" := g(DefinitionJson(m.instruction, m.previousSuccess)),
                   "schedule" := g(ScheduleJson(m.schedule)),
                   "capability" := g(CapabilityJson(m.capability)),
                   "targets" := g(TargetsJson(m.targets))]
  {
    MutationKeysAreDistinct();
    EightFields(MUTATION_KEYS, MutationValues(m), g);
    RequestPlaces(m, g);
    ContentPlaces(m, g);
  }

  lemma OptionsMean(s: Option<string>, n: Option<I64>)
    ensures Denote(OptionalString(s)) == OptionalText(s)
    ensures Denote(OptionalInt(n)) == OptionalWhole(n)
  {
  }

  lemma RequestMeans(operation: string, owner: Principal, jobId: Option<string>,
                     generation: Option<I64>)
    ensures map["operation" := Denote(Str(operation)), "owner" := Denote(PrincipalJson(owner)),
                "job_id" := Denote(OptionalString(jobId)),
                "expected_generation" := Denote(OptionalInt(generation))]
            == RequestRecord(operation, owner, OptionalText(jobId), OptionalWhole(generation))
  {
    PrincipalMeans(owner);
    OptionsMean(jobId, generation);
  }

  lemma ContentMeans(m: Mutation)
    requires m.capability.snapshot.Some?
    ensures map["definition" := Denote(DefinitionJson(m.instruction, m.previousSuccess)),
                "schedule" := Denote(ScheduleJson(m.schedule)),
                "capability" := Denote(CapabilityJson(m.capability)),
                "targets" := Denote(TargetsJson(m.targets))]
            == ContentRecord(m.instruction, m.previousSuccess, m.schedule, m.capability, m.targets)
  {
    DefinitionMeans(m.instruction, m.previousSuccess);
    ScheduleMeans(m.schedule);
    CapabilityMeans(m.capability);
    TargetsMean(m.targets);
  }

  /** The object a create or update request is digested over, field by field. */
  lemma MutationMeans(m: Mutation)
    requires m.capability.snapshot.Some?
    ensures MutationSemantics(m).Some?
    ensures Denote(MutationSemantics(m).value) == RecordValue(MutationRecord(m))
  {
    RecordMeans(MUTATION_KEYS, MutationValues(m));
    MutationFields(m, Denote);
    RequestMeans(m.operation, m.owner, m.jobId, m.expectedGeneration);
    ContentMeans(m);
  }

  /** The ids targets get within a job are not part of what is digested. */
  lemma ScopedTargetsMean(jobId: string, targets: seq<Target>, hash: string -> Hex)
    ensures TargetsValue(ScopeTargets(jobId, targets, hash)) == TargetsValue(targets)
  {
    var scoped := ScopeTargets(jobId, targets, hash);
    var a, b := TargetsValue(scoped).elements, TargetsValue(targets).elements;
    forall i | 0 <= i < |targets| ensures a[i] == b[i] {
      assert SameTarget(scoped[i], targets[i]);
    }
    assert a == b;
  }

  /** A create names no job and no generation. */
  lemma CreateMeans(r: CreateRequest, w: Resolution, hash: string -> Hex)
    requires w.capability.snapshot.Some?
    ensures Denote(MutationSemantics(CreateMutation(r, w, hash)).value) == RecordValue(
              RequestRecord("create", w.owner, NullValue, NullValue)
              + ContentRecord(r.instruction, r.previousSuccess, r.schedule, w.capability,
                              w.targets))
  {
    MutationMeans(CreateMutation(r, w, hash));
    ScopedTargetsMean(JobId(w.owner, r.requestId, hash), w.targets, hash);
  }

  /** An update names both. */
  lemma UpdateMeans(r: UpdateRequest, w: Resolution, hash: string -> Hex)
    requires w.capability.snapshot.Some?
    ensures Denote(MutationSemantics(UpdateMutation(r, w, hash)).value) == RecordValue(
              RequestRecord("update", w.owner, TextValue(r.jobId), WholeValue(r.expectedGeneration))
              + ContentRecord(r.instruction, r.previousSuccess, r.schedule, w.capability,
                              w.targets))
  {
    MutationMeans(UpdateMutation(r, w, hash));
    ScopedTargetsMean(r.jobId, w.targets, hash);
  }

  /** And for pause, resume and delete. */
  lemma LifecycleMeans(l: Lifecycle)
    ensures Denote(LifecycleSemantics(l)) == RecordValue(
              RequestRecord(l.operation, l.owner, TextValue(l.jobId),
                            WholeValue(l.expectedGeneration)))
  {
    LifecycleKeysAreDistinct();
    RecordMeans(LIFECYCLE_KEYS, LifecycleValues(l));
    FourFields(LIFECYCLE_KEYS, LifecycleValues(l), Denote);
    PrincipalMeans(l.owner);
  }

  /** The object a created job is named after. */
  lemma JobMeans(owner: Principal, requestId: string)
    ensures Denote(JobPreimage(owner, requestId)) == RecordValue(
              map["owner" := RecordValue(PrincipalRecord(owner)),
                  "request_id" := TextValue(requestId)])
  {
    var values := [PrincipalJson(owner), Str(requestId)];
    JobPreimageIsWellFormed(owner, requestId);
    RecordMeans(JOB_KEYS, values);
    TwoFields(JOB_KEYS, values, Denote);
    PrincipalMeans(owner);
  }

  /** The object a delivery target of a job is named after. */
  lemma TargetIdMeans(jobId: string, ordinal: nat, t: Target)
    ensures Denote(TargetPreimage(jobId, ordinal, t)) == RecordValue(
              map["job_id" := TextValue(jobId), "ordinal" := WholeValue(ordinal),
                  "identity_digest" := TextValue(t.identityDigest)])
  {
    var keys := ["job_id", "ordinal", "identity_digest"];
    var values := [Str(jobId), Int(ordinal), Str(t.identityDigest)];
    TargetIdKeysAreDistinct();
    RecordMeans(keys, values);
    ThreeFields(keys, values, Denote);
  }

  lemma TargetIdKeysAreDistinct()
    ensures Distinct(["job_id", "ordinal", "identity_digest"])
  {
  }

  // ---------------------------------------------------------------- the digested text

  /** Whoever parses the text a create or update is digested over finds exactly these fields. */
  lemma DigestedMutation(m: Mutation)
    requires Parsed(m)
    ensures var found := Parse(CanonicalText(MutationSemantics(m).value));
            found.Some? && Denote(found.value) == RecordValue(MutationRecord(m))
  {
    MutationIsWellFormed(m);
    CanonicalTextParses(MutationSemantics(m).value);
    MutationMeans(m);
  }

  lemma DigestedLifecycle(l: Lifecycle)
    ensures var found := Parse(CanonicalText(LifecycleSemantics(l)));
            && found.Some?
            && Denote(found.value) == RecordValue(
                 RequestRecord(l.operation, l.owner, TextValue(l.jobId),
                               WholeValue(l.expectedGeneration)))
  {
    LifecycleIsWellFormed(l);
    CanonicalTextParses(LifecycleSemantics(l));
    LifecycleMeans(l);
  }
}
