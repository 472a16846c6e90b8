/**
What an audit record says, spelled out field by field: the name of the operation, the ids, the
principal and the generations of a call, and the code, outcome and decision of every error.
*/
module AuditTable {
  import opened MachineInts
  import opened Utf8
  import opened CanonicalJson
  import opened ScheduleAudit

  const MUTATING_TOOLS: set<string> :=
    {"schedule_create", "schedule_update", "schedule_pause", "schedule_resume", "schedule_delete"}

  const READING_TOOLS: set<string> := {"schedule_get", "schedule_list"}

  /** A call whose tool is known and whose arguments parse. */
  predicate Understood(call: ToolCall) {
    call.arguments.Fields? && call.tool in MUTATING_TOOLS + READING_TOOLS
  }

  // ---------------------------------------------------------------- errors

  /** The code an error is reported with, and the outcome and decision it is recorded with. */
  lemma ErrorTable(e: ServiceError)
    ensures
      var row := (Code(e), ClassifyError(e).outcome, ClassifyError(e).decision);
      match e
      case Unauthorized => row == ("unauthorized", "denied", Deny)
      case NotVisible => row == ("not_found_or_not_visible", "not_visible", Deny)
      case InvalidRequest(_) => row == ("validation_failed", "validation", Deny)
      case PolicyLimit(_) => row == ("policy_limit_rejected", "validation", Deny)
      case ResolverUnavailable =>
        row == ("resolver_unavailable", "resolver_unavailable", Refused)
      case TargetUnavailable => row == ("target_unavailable", "target_unavailable", Deny)
      case ResolverNotAllowed => row == ("resolver_not_allowed", "resolver_not_allowed", Deny)
      case ResolverTimeout => row == ("resolver_timeout", "resolver_timeout", Refused)
      case CapabilityUnavailable =>
        row == ("capability_unavailable", "capability_unavailable", Deny)
      case CapabilityInvalid => row == ("capability_invalid", "capability_invalid", Refused)
      case IdempotencyInProgress => row == ("idempotency_in_progress", "in_progress", Refused)
      case IdempotencyConflict => row == ("idempotency_conflict", "conflict", Deny)
      case State(SchedulerGenerationConflict) =>
        row == ("stale_generation", "stale_generation", Refused)
      case State(ScheduledOnceExpired) =>
        row == ("expired_not_resumable", "expired_not_resumable", Refused)
      case State(ScheduledActiveJobLimitExceeded) =>
        row == ("active_job_limit_exceeded", "validation", Deny)
      case State(Contention) => row == ("storage_busy", "storage_busy", Refused)
      case State(InvalidSchedulerState) => row == ("storage_error", "storage_internal", Refused)
      case State(OtherStateError) => row == ("storage_error", "storage_internal", Refused)
  {
  }

  /** The errors whose callers are told to try again. */
  predicate Retryable(e: ServiceError) {
    e in {ResolverUnavailable, ResolverTimeout, IdempotencyInProgress, State(Contention)}
  }

  /** None of them is recorded as a denial. */
  lemma RetryableIsNoDenial(e: ServiceError)
    requires Retryable(e)
    ensures ClassifyError(e).decision == Refused
  {
    ErrorTable(e);
  }

  // ---------------------------------------------------------------- names and ids

  lemma KnownTools(tool: string)
    ensures ToolOperation(tool).Some? <==> tool in MUTATING_TOOLS + READING_TOOLS
    ensures ToolOperation(tool).Some? ==>
              (IsMutation(ToolOperation(tool).value) <==> tool in MUTATING_TOOLS)
  {
  }

  lemma SpecialTools(tool: string)
    ensures ToolOperation(tool) == Some(CreateOp) <==> tool == "schedule_create"
    ensures ToolOperation(tool) == Some(GetOp) <==> tool == "schedule_get"
    ensures ToolOperation(tool) == Some(ListOp) <==> tool == "schedule_list"
  {
  }

  /** A known tool's record names the operation behind the prefix; any other's says "list". */
  lemma ToolsAreNamed(tool: string)
    ensures if tool in MUTATING_TOOLS + READING_TOOLS then
              tool == "schedule_" + ScheduleOperation(tool)
            else ScheduleOperation(tool) == "list"
  {
    KnownTools(tool);
  }

  /** The id a call brings along: its request id, the job it reads, or the word "list". */
  function GivenId(arrival: Arrival): Option<string> {
    var call := arrival.call;
    if !arrival.authorized || !Understood(call) then call.requestHint
    else if call.tool == "schedule_get" then Some(call.arguments.jobId)
    else if call.tool == "schedule_list" then Some("list")
    else Some(call.arguments.requestId)
  }

  /** The job a call names; a create names none. */
  function GivenJob(arrival: Arrival): Option<string> {
    var call := arrival.call;
    if !arrival.authorized || !Understood(call) then call.jobHint
    else if call.tool in {"schedule_create", "schedule_list"} then None
    else Some(call.arguments.jobId)
  }

  /** The record carries the given id if that has 1 to 255 bytes, and its own id otherwise. */
  lemma AttemptsAreNamed(arrival: Arrival, eventId: string)
    ensures var a, call := ArrivalAttempt(arrival, eventId), arrival.call;
            && a.eventId == eventId && a.occurredAt == call.now
            && a.operation == ScheduleOperation(call.tool)
            && a.jobId == GivenJob(arrival)
            && a.principal == (if call.authenticated.Some? then call.authenticated else call.actor)
            && a.requestId == a.correlationId
            && a.correlationId ==
                 if GivenId(arrival).Some? && 1 <= ByteLen(GivenId(arrival).value) <= 255
                 then GivenId(arrival).value else eventId
  {
    KnownTools(arrival.call.tool);
    SpecialTools(arrival.call.tool);
    if GivenId(arrival).Some? {
      ByteLenIsPositive(GivenId(arrival).value);
    }
  }

  lemma ByteLenIsPositive(s: string)
    ensures ByteLen(s) >= 1 <==> s != ""
  {
  }

  // ---------------------------------------------------------------- what was done

  /** A request id that is not blank at either end and has at most 255 bytes. */
  predicate ProperRequestId(id: string) {
    id != "" && !IsWhitespace(id[0]) && !IsWhitespace(id[|id| - 1]) && ByteLen(id) <= 255
  }

  lemma PreparedExactly(call: ToolCall, op: Operation)
    requires call.arguments.Fields?
    ensures Preparation(call, op).Ok? <==>
              && ProperRequestId(call.arguments.requestId)
              && call.prepared.Ok? && call.encoded.Ok?
              && (op.CreateOp? || call.arguments.expectedGeneration < I64_MAX)
    ensures Preparation(call, op).Ok? ==> Preparation(call, op) == call.prepared
  {
  }

  /** A mutation is applied exactly when everything before the store succeeds and the store does. */
  lemma AppliesExactly(arrival: Arrival)
    ensures Applies(arrival) <==>
              var call := arrival.call;
              && arrival.authorized && call.arguments.Fields? && call.tool in MUTATING_TOOLS
              && ProperRequestId(call.arguments.requestId)
              && call.prepared.Ok? && call.encoded.Ok? && call.answer.Applied?
              && (call.tool == "schedule_create" || call.arguments.expectedGeneration < I64_MAX)
  {
    var call := arrival.call;
    KnownTools(call.tool);
    SpecialTools(call.tool);
    if call.arguments.Fields? && call.tool in MUTATING_TOOLS {
      PreparedExactly(call, ToolOperation(call.tool).value);
    }
  }

  /** The record an applied mutation leaves: its job moves from generation g to g + 1. */
  ghost predicate RecordsChange(r: Audit, arrival: Arrival) {
    var call := arrival.call;
    && call.prepared.Ok? && call.arguments.Fields?
    && var p, g := call.prepared.value, call.arguments.expectedGeneration;
       && r.outcome == "applied" && r.decision == Allow && r.errorCode == None
       && r.principal == Some(p.owner) && r.resolver == p.resolver && r.capability == p.capability
       && r.idempotencyOutcome == Some("applied")
       && if call.tool == "schedule_create" then
            r.jobId == Some(p.createdJobId) && r.oldGeneration == None && r.newGeneration == Some(0)
          else
            && r.jobId == Some(call.arguments.jobId)
            && r.oldGeneration == Some(g)
            && r.newGeneration.Some? && r.newGeneration.value == g + 1
  }

  /** Any other record: no generation, no resolver and no capability. */
  ghost predicate RecordsNoChange(r: Audit, a: Attempt) {
    && r.jobId == a.jobId && r.oldGeneration == None && r.newGeneration == None
    && r.resolver == None && r.capability == None
  }

  lemma ChangesAreRecorded(arrival: Arrival, a: Attempt)
    requires Applies(arrival)
    ensures RecordsChange(ArrivalRecord(arrival, a), arrival)
  {
    SpecialTools(arrival.call.tool);
    PreparedExactly(arrival.call, ToolOperation(arrival.call.tool).value);
  }

  lemma NothingElseIsRecorded(arrival: Arrival, a: Attempt)
    requires !Applies(arrival)
    ensures RecordsNoChange(ArrivalRecord(arrival, a), a)
  {
  }

  /** A refused call is recorded with its error, an allowed one as applied or replayed. */
  lemma RepliesAreRecorded(arrival: Arrival, a: Attempt)
    requires !Applies(arrival)
    ensures var r := ArrivalRecord(arrival, a);
            match ArrivalTold(arrival)
            case Failure(e) =>
              && r.outcome == ClassifyError(e).outcome && r.decision == ClassifyError(e).decision
              && r.errorCode == Some(Code(e)) && r.principal == a.principal
              && r.idempotencyOutcome == None
            case Success(_) =>
              && r.decision == Allow && r.errorCode == None
              && if arrival.call.tool in MUTATING_TOOLS then
                   && r.outcome == "replay" && r.idempotencyOutcome == Some("replay")
                   && r.principal == a.principal
                 else
                   && r.outcome == "applied" && r.idempotencyOutcome == None
                   && arrival.call.readResult.Ok?
                   && r.principal == Some(arrival.call.readResult.value.1)
  {
    KnownTools(arrival.call.tool);
  }

  // ---------------------------------------------------------------- what is answered

  /** The refusals that come before the store is asked, in order. */
  function Objection(arrival: Arrival): Option<ServiceError> {
    var call := arrival.call;
    if !arrival.authorized then Some(Unauthorized)
    else if call.tool !in MUTATING_TOOLS + READING_TOOLS then
      Some(InvalidRequest("unsupported dynamic tool: " + call.tool))
    else if call.arguments.Malformed? then Some(InvalidRequest(call.arguments.reason))
    else if call.tool in READING_TOOLS then
      if call.readResult.Err? then Some(call.readResult.error) else None
    else if !ProperRequestId(call.arguments.requestId) then
      Some(InvalidRequest("request_id must be a bounded non-empty string"))
    else if call.prepared.Err? then Some(call.prepared.error)
    else if call.tool != "schedule_create" && call.arguments.expectedGeneration == I64_MAX then
      Some(InvalidRequest("expected_generation is too large"))
    else if call.encoded.Err? then Some(call.encoded.error)
    else None
  }

  /** Otherwise a read is answered with what was read, a mutation with what the store says. */
  lemma AnswersExactly(arrival: Arrival)
    ensures
      var call := arrival.call;
      match Objection(arrival)
      case Some(e) => ArrivalTold(arrival) == Failure(e)
      case None =>
        if call.tool in READING_TOOLS then
          call.readResult.Ok? && ArrivalTold(arrival) == Success(call.readResult.value.0)
        else
          match call.answer
          case Applied =>
            && call.prepared.Ok?
            && ArrivalTold(arrival) == Success(Canonicalize(call.prepared.value.response))
          case Replay(Some(content)) => ArrivalTold(arrival) == Success(content)
          case Replay(None) => ArrivalTold(arrival) == Failure(State(InvalidSchedulerState))
          case InProgress => ArrivalTold(arrival) == Failure(IdempotencyInProgress)
          case Conflict => ArrivalTold(arrival) == Failure(IdempotencyConflict)
          case StoreError(error) => ArrivalTold(arrival) == Failure(State(error))
  {
    KnownTools(arrival.call.tool);
    SpecialTools(arrival.call.tool);
  }

  // ---------------------------------------------------------------- over whole runs

  /**
  In any run the record of a kept call, at its place, is the one spelled out above: it carries its
  attempt's ids, operation and time, and the caller was told what is spelled out above.
  */
  lemma TrailIsSpelledOut(logs: seq<Log>, calls: seq<Arrival>, replies: seq<Reply>, i: nat)
    requires ServedInTurn(logs, calls, replies) && i < |calls| && IsRecorded(calls[i])
    ensures var at, audits := |logs[0].audits| + RecordCount(calls, i), logs[|calls|].audits;
            var id := EventId(logs[0].process, calls[i].call.nanos, logs[0].sequence + i);
            var a := ArrivalAttempt(calls[i], id);
            var r := ArrivalRecord(calls[i], a);
            && at < |audits| && audits[at] == r
            && r.auditId == id && r.operation == a.operation && r.occurredAt == a.occurredAt
            && r.requestId == a.requestId && r.correlationId == a.correlationId
            && replies[i] == ArrivalTold(calls[i])
  {
    ServedRunsGrow(logs, calls, replies);
    LogsGrow(logs, calls, replies, i);
    RecordsStay(logs, calls, replies, i + 1, |calls|);
    RecordMatches(logs, calls, replies, i);
    assert Served(logs[i], calls[i], logs[i + 1], replies[i]);
  }
}
