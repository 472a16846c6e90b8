/**
Schedule tool calls and their audit trail, across the tool handler, the service and the store:
who is asked what, which record is written, and what the caller is told.
*/
module ScheduleAudit {
  import opened MachineInts
  import opened Utf8
  import opened CanonicalJson
  import JsonText
  import DigestPreimage

  type Principal = DigestPreimage.Principal

  // ---------------------------------------------------------------- errors

  datatype StateError =
    | SchedulerGenerationConflict
    | ScheduledOnceExpired
    | ScheduledActiveJobLimitExceeded
    | Contention
    | InvalidSchedulerState
    | OtherStateError

  datatype ServiceError =
    | Unauthorized
    | NotVisible
    | InvalidRequest(reason: string)
    | PolicyLimit(reason: string)
    | ResolverUnavailable
    | TargetUnavailable
    | ResolverNotAllowed
    | ResolverTimeout
    | CapabilityUnavailable
    | CapabilityInvalid
    | IdempotencyInProgress
    | IdempotencyConflict
    | State(error: StateError)

  function Code(e: ServiceError): string {
    match e
    case Unauthorized => "unauthorized"
    case NotVisible => "not_found_or_not_visible"
    case InvalidRequest(_) => "validation_failed"
    case PolicyLimit(_) => "policy_limit_rejected"
    case ResolverUnavailable => "resolver_unavailable"
    case TargetUnavailable => "target_unavailable"
    case ResolverNotAllowed => "resolver_not_allowed"
    case ResolverTimeout => "resolver_timeout"
    case CapabilityUnavailable => "capability_unavailable"
    case CapabilityInvalid => "capability_invalid"
    case IdempotencyInProgress => "idempotency_in_progress"
    case IdempotencyConflict => "idempotency_conflict"
    case State(SchedulerGenerationConflict) => "stale_generation"
    case State(ScheduledOnceExpired) => "expired_not_resumable"
    case State(ScheduledActiveJobLimitExceeded) => "active_job_limit_exceeded"
    case State(Contention) => "storage_busy"
    case State(_) => "storage_error"
  }

  datatype Decision = Allow | Deny | Refused

  datatype Classification = Classification(outcome: string, decision: Decision)

  /** `Refused` is the decision written as "error". No error is ever an allow. */
  function ClassifyError(e: ServiceError): (c: Classification)
    ensures c.decision != Allow
  {
    match e
    case Unauthorized => Classification("denied", Deny)
    case NotVisible => Classification("not_visible", Deny)
    case InvalidRequest(_) => Classification("validation", Deny)
    case PolicyLimit(_) => Classification("validation", Deny)
    case State(ScheduledActiveJobLimitExceeded) => Classification("validation", Deny)
    case ResolverUnavailable => Classification("resolver_unavailable", Refused)
    case TargetUnavailable => Classification("target_unavailable", Deny)
    case ResolverNotAllowed => Classification("resolver_not_allowed", Deny)
    case ResolverTimeout => Classification("resolver_timeout", Refused)
    case CapabilityUnavailable => Classification("capability_unavailable", Deny)
    case CapabilityInvalid => Classification("capability_invalid", Refused)
    case IdempotencyInProgress => Classification("in_progress", Refused)
    case IdempotencyConflict => Classification("conflict", Deny)
    case State(SchedulerGenerationConflict) => Classification("stale_generation", Refused)
    case State(ScheduledOnceExpired) => Classification("expired_not_resumable", Refused)
    case State(Contention) => Classification("storage_busy", Refused)
    case State(_) => Classification("storage_internal", Refused)
  }

  // ---------------------------------------------------------------- audit ids

  function HexText(n: nat): (text: string)
    ensures text != "" && '_' !in text
  {
    if n < 16 then [JsonText.HexDigit(n)] else HexText(n / 16) + [JsonText.HexDigit(n % 16)]
  }

  function EventId(process: nat, nanos: nat, sequence: nat): string {
    "audit_" + HexText(process) + "_" + HexText(nanos) + "_" + HexText(sequence)
  }

  lemma {:induction false} HexTextIsInjective(m: nat, n: nat)
    requires HexText(m) == HexText(n)
    ensures m == n
  {
    var s, t := HexText(m), HexText(n);
    assert s[|s| - 1] == JsonText.HexDigit(m % 16) && t[|t| - 1] == JsonText.HexDigit(n % 16);
    if m >= 16 && n >= 16 {
      assert s[..|s| - 1] == HexText(m / 16) && t[..|t| - 1] == HexText(n / 16);
      HexTextIsInjective(m / 16, n / 16);
    }
  }

  lemma LastPartIsUnique(a: string, s: string, b: string, t: string)
    requires a + "_" + s == b + "_" + t && '_' !in s && '_' !in t
    ensures s == t
  {
    var whole := a + "_" + s;
    assert whole[|a|] == '_' && whole[|b|] == '_';
    assert forall i | |a| < i < |whole| :: whole[i] == s[i - |a| - 1];
    assert forall i | |b| < i < |whole| :: whole[i] == t[i - |b| - 1];
    assert |a| == |b|;
    assert s == whole[|a| + 1..] && t == whole[|b| + 1..];
  }

  /** Whatever the clock says, different sequence numbers give different ids. */
  lemma EventIdsAreUnique(process: nat, m: nat, i: nat, n: nat, j: nat)
    requires EventId(process, m, i) == EventId(process, n, j)
    ensures i == j
  {
    LastPartIsUnique("audit_" + HexText(process) + "_" + HexText(m), HexText(i),
                     "audit_" + HexText(process) + "_" + HexText(n), HexText(j));
    HexTextIsInjective(i, j);
  }

  // ---------------------------------------------------------------- calls and records

  datatype Arguments =
    | Malformed(reason: string)
    | Fields(requestId: string, jobId: string, expectedGeneration: I64)

  datatype Snapshot = Snapshot(provider: string, kind: string, version: U32, digest: string)

  /** What preparation yields: owner, a create's job id, response, first target and capability. */
  datatype Prepared = Prepared(
    owner: Principal,
    createdJobId: string,
    response: Json,
    resolver: Option<Snapshot>,
    capability: Option<Snapshot>
  )

  datatype Result<T> = Ok(value: T) | Err(error: ServiceError)

  /**
  An applied mutation hands back the response text it was given, which parses to the canonical
  form it was printed from. A replayed response was stored by an earlier call; it is given by what
  it parses to, if it parses.
  */
  datatype StoreAnswer =
    | StoreError(error: StateError)
    | Applied
    | Replay(response: Option<Json>)
    | InProgress
    | Conflict

  /** A call and everything its environment answers. */
  datatype ToolCall = ToolCall(
    tool: string,
    arguments: Arguments,
    requestHint: Option<string>,
    jobHint: Option<string>,
    actor: Option<Principal>,
    authenticated: Option<Principal>,
    now: I64,
    nanos: nat,
    prepared: Result<Prepared>,
    encoded: Result<()>,
    answer: StoreAnswer,
    readResult: Result<(Json, Principal)>,
    appendError: Option<StateError>
  )

  datatype Reply = Success(content: Json) | Failure(error: ServiceError)

  datatype Attempt = Attempt(
    eventId: string,
    principal: Option<Principal>,
    operation: string,
    jobId: Option<string>,
    requestId: string,
    correlationId: string,
    occurredAt: I64
  )

  datatype Audit = Audit(
    auditId: string,
    principal: Option<Principal>,
    operation: string,
    jobId: Option<string>,
    requestId: string,
    correlationId: string,
    outcome: string,
    decision: Decision,
    errorCode: Option<string>,
    oldGeneration: Option<I64>,
    newGeneration: Option<I64>,
    resolver: Option<Snapshot>,
    capability: Option<Snapshot>,
    idempotencyOutcome: Option<string>,
    occurredAt: I64
  )

  function RecordOf(a: Attempt, outcome: string, decision: Decision, errorCode: Option<string>)
    : Audit
  {
    Audit(a.eventId, a.principal, a.operation, a.jobId, a.requestId, a.correlationId, outcome,
          decision, errorCode, None, None, None, None, None, a.occurredAt)
  }

  function ErrorRecord(a: Attempt, e: ServiceError): Audit {
    var c := ClassifyError(e);
    RecordOf(a, c.outcome, c.decision, Some(Code(e)))
  }

  // ---------------------------------------------------------------- validation

  /** A request id short enough to correlate by. */
  predicate Correlates(id: string) { id != "" && ByteLen(id) <= 255 }

  /** Visible at both ends and short enough. */
  predicate BoundedText(value: string) {
    value != "" && !IsWhitespace(value[0]) && !IsWhitespace(value[|value| - 1])
    && ByteLen(value) <= 255
  }

  datatype Operation = CreateOp | UpdateOp | PauseOp | ResumeOp | DeleteOp | GetOp | ListOp

  function Name(op: Operation): string {
    match op
    case CreateOp => "create"
    case UpdateOp => "update"
    case PauseOp => "pause"
    case ResumeOp => "resume"
    case DeleteOp => "delete"
    case GetOp => "get"
    case ListOp => "list"
  }

  function ToolOperation(tool: string): Option<Operation> {
    if tool == "schedule_create" then Some(CreateOp)
    else if tool == "schedule_get" then Some(GetOp)
    else if tool == "schedule_list" then Some(ListOp)
    else if tool == "schedule_update" then Some(UpdateOp)
    else if tool == "schedule_pause" then Some(PauseOp)
    else if tool == "schedule_resume" then Some(ResumeOp)
    else if tool == "schedule_delete" then Some(DeleteOp)
    else None
  }

  /** The operation a rejected call is recorded under; unknown tools count as list. */
  function ScheduleOperation(tool: string): string {
    match ToolOperation(tool)
    case Some(op) => Name(op)
    case None => "list"
  }

  function AttemptOf(call: ToolCall, eventId: string, operation: string, requestId: Option<string>,
                     jobId: Option<string>): Attempt
  {
    var correlation :=
      if requestId.Some? && Correlates(requestId.value) then requestId.value else eventId;
    Attempt(eventId, if call.authenticated.Some? then call.authenticated else call.actor, operation,
            jobId, correlation, correlation, call.now)
  }

  // ---------------------------------------------------------------- what a call comes to

  /** The parsers or the tool dispatch turned the call away. */
  predicate InputRejected(call: ToolCall) {
    call.arguments.Malformed? || ToolOperation(call.tool).None?
  }

  predicate IsMutation(op: Operation) { !op.GetOp? && !op.ListOp? }

  /** Preparation of a mutation, as far as it depends on the request itself. */
  function Preparation(call: ToolCall, op: Operation): Result<Prepared>
    requires call.arguments.Fields?
  {
    if !BoundedText(call.arguments.requestId) then
      Err(InvalidRequest("request_id must be a bounded non-empty string"))
    else if call.prepared.Err? then call.prepared
    else if !op.CreateOp? && call.arguments.expectedGeneration == I64_MAX then
      Err(InvalidRequest("expected_generation is too large"))
    else if call.encoded.Err? then Err(call.encoded.error)
    else call.prepared
  }

  /** The store carries the mutation out, and writes the record with it. */
  predicate StoreApplies(call: ToolCall) {
    && !InputRejected(call)
    && IsMutation(ToolOperation(call.tool).value)
    && Preparation(call, ToolOperation(call.tool).value).Ok?
    && call.answer.Applied?
  }

  /** The id the attempt is correlated by, where the call carries one. */
  function RequestIdOf(call: ToolCall): Option<string> {
    if InputRejected(call) then call.requestHint
    else match ToolOperation(call.tool).value
      case GetOp => Some(call.arguments.jobId)
      case ListOp => Some("list")
      case _ => Some(call.arguments.requestId)
  }

  function JobIdOf(call: ToolCall): Option<string> {
    if InputRejected(call) then call.jobHint
    else match ToolOperation(call.tool).value
      case CreateOp => None
      case ListOp => None
      case _ => Some(call.arguments.jobId)
  }

  function AttemptFor(call: ToolCall, eventId: string): Attempt {
    AttemptOf(call, eventId, ScheduleOperation(call.tool), RequestIdOf(call), JobIdOf(call))
  }

  /** The record of an applied mutation. */
  function AppliedRecord(a: Attempt, call: ToolCall, op: Operation, p: Prepared): Audit
    requires call.arguments.Fields?
  {
    var g := call.arguments.expectedGeneration;
    RecordOf(a, "applied", Allow, None).(
      principal := Some(p.owner),
      operation := Name(op),
      jobId := Some(if op.CreateOp? then p.createdJobId else call.arguments.jobId),
      requestId := call.arguments.requestId,
      correlationId := call.arguments.requestId,
      oldGeneration := if op.CreateOp? then None else Some(g),
      newGeneration := if op.CreateOp? then Some(0) else CheckedAdd(g, 1),
      resolver := p.resolver,
      capability := p.capability,
      idempotencyOutcome := Some("applied"))
  }

  /** A record says who asked for what, under the attempt's id and correlation. */
  predicate Describes(record: Audit, a: Attempt) {
    && record.auditId == a.eventId
    && record.operation == a.operation
    && record.requestId == a.requestId
    && record.correlationId == a.correlationId
    && record.occurredAt == a.occurredAt
    && (a.jobId.Some? ==> record.jobId == a.jobId)
  }

  /** The record says what the caller was told. */
  predicate Agrees(record: Audit, reply: Reply) {
    match reply
    case Success(_) => record.decision == Allow && record.errorCode == None
    case Failure(e) =>
      && record.decision == ClassifyError(e).decision && record.outcome == ClassifyError(e).outcome
      && record.errorCode == Some(Code(e))
  }

  /** An applied mutation moves its job one generation on, from none to zero when it creates it. */
  predicate Advances(record: Audit) {
    && record.principal.Some? && record.jobId.Some?
    && match record.oldGeneration
       case None => record.newGeneration == Some(0)
       case Some(g) => record.newGeneration.Some? && record.newGeneration.value == g + 1
  }

  /** Whether the record of a call reaches the trail: written by the store, or appended. */
  predicate Recorded(call: ToolCall, applied: bool) {
    applied || call.appendError.None?
  }

  /**
  One call's effect on the trail. A recorded call adds exactly one record, which describes the
  attempt, moves an applied job on, and says what the caller was told. A call whose record could
  not be appended adds none and reports that to the caller.
  */
  ghost predicate Audited(before: seq<Audit>, after: seq<Audit>, a: Attempt, call: ToolCall,
                          applied: bool, reply: Reply)
  {
    if Recorded(call, applied) then
      && |after| == |before| + 1 && before <= after
      && Describes(after[|before|], a)
      && (applied ==> Advances(after[|before|]))
      && Agrees(after[|before|], reply)
    else
      after == before && reply == Failure(State(call.appendError.value))
  }

  /** What the caller is told when the record is kept. */
  function Told(call: ToolCall): Reply {
    match ToolOperation(call.tool)
    case None => Failure(InvalidRequest("unsupported dynamic tool: " + call.tool))
    case Some(op) =>
      if call.arguments.Malformed? then Failure(InvalidRequest(call.arguments.reason))
      else if IsMutation(op) then
        match Preparation(call, op)
        case Err(error) => Failure(error)
        case Ok(p) => Answered(call.answer, p)
      else
        match call.readResult
        case Err(error) => Failure(error)
        case Ok(value) => Success(value.0)
  }

  function Answered(answer: StoreAnswer, p: Prepared): Reply {
    match answer
    case StoreError(error) => Failure(State(error))
    case Applied => Success(Canonicalize(p.response))
    case Replay(Some(content)) => Success(content)
    case InProgress => Failure(IdempotencyInProgress)
    case Conflict => Failure(IdempotencyConflict)
    case Replay(None) => Failure(State(InvalidSchedulerState))
  }

  function ReplayRecord(a: Attempt): Audit {
    RecordOf(a, "replay", Allow, None).(idempotencyOutcome := Some("replay"))
  }

  function ReadRecord(a: Attempt, owner: Principal): Audit {
    RecordOf(a, "applied", Allow, None).(principal := Some(owner))
  }

  /** The record of a handled call, when it is kept. */
  function RecordFor(call: ToolCall, a: Attempt): Audit {
    match Told(call)
    case Failure(error) => ErrorRecord(a, error)
    case Success(_) =>
      var op := ToolOperation(call.tool).value;
      if !IsMutation(op) then ReadRecord(a, call.readResult.value.1)
      else if call.answer.Applied? then AppliedRecord(a, call, op, Preparation(call, op).value)
      else ReplayRecord(a)
  }

  /** The process-wide sequence and the stored trail. */
  datatype Log = Log(process: nat, sequence: nat, audits: seq<Audit>)

  /** A call as it arrives: handled by the tools, or turned away for want of authority. */
  datatype Arrival = Arrival(call: ToolCall, authorized: bool)

  /** The store carries out the mutation of a call that gets that far. */
  predicate Applies(arrival: Arrival) {
    arrival.authorized && StoreApplies(arrival.call)
  }

  function ArrivalAttempt(arrival: Arrival, eventId: string): Attempt {
    var call := arrival.call;
    if arrival.authorized then AttemptFor(call, eventId)
    else AttemptOf(call, eventId, ScheduleOperation(call.tool), call.requestHint, call.jobHint)
  }

  function ArrivalTold(arrival: Arrival): Reply {
    if arrival.authorized then Told(arrival.call) else Failure(Unauthorized)
  }

  function ArrivalRecord(arrival: Arrival, a: Attempt): Audit {
    if arrival.authorized then RecordFor(arrival.call, a) else ErrorRecord(a, Unauthorized)
  }

  predicate IsRecorded(arrival: Arrival) {
    Recorded(arrival.call, Applies(arrival))
  }

  /** One served call: one sequence number, one audit, and the reply the environment calls for. */
  ghost predicate Served(before: Log, arrival: Arrival, after: Log, reply: Reply) {
    var call := arrival.call;
    var a := ArrivalAttempt(arrival, EventId(before.process, call.nanos, before.sequence));
    && after.process == before.process
    && after.sequence == before.sequence + 1
    && Audited(before.audits, after.audits, a, call, Applies(arrival), reply)
    && (IsRecorded(arrival) ==>
          && reply == ArrivalTold(arrival)
          && after.audits == before.audits + [ArrivalRecord(arrival, a)])
  }

  // ---------------------------------------------------------------- the three layers

  /** The tool handler and its service, with the process-wide sequence and the stored trail. */
  class ScheduleTools {
    const process: nat
    var sequence: nat
    var audits: seq<Audit>

    constructor (process: nat, sequence: nat, audits: seq<Audit>)
      ensures this.process == process && this.sequence == sequence && this.audits == audits
    {
      this.process := process;
      this.sequence := sequence;
      this.audits := audits;
    }

    ghost function View(): Log
      reads this
    {
      Log(process, sequence, audits)
    }

    method AuditAttempt(call: ToolCall, operation: string, requestId: Option<string>,
                        jobId: Option<string>) returns (a: Attempt)
      modifies this`sequence
      ensures sequence == old(sequence) + 1
      ensures a == AttemptOf(call, EventId(process, call.nanos, old(sequence)), operation,
                             requestId, jobId)
    {
      var eventId := EventId(process, call.nanos, sequence);
      sequence := sequence + 1;
      a := AttemptOf(call, eventId, operation, requestId, jobId);
    }

    method AppendAudit(record: Audit, call: ToolCall) returns (error: Option<StateError>)
      modifies this`audits
      ensures error == call.appendError
      ensures audits == old(audits) + (if error.None? then [record] else [])
    {
      error := call.appendError;
      if error.None? {
        audits := audits + [record];
      }
    }

    method FinishErrorAttempt(a: Attempt, error: ServiceError, call: ToolCall)
      returns (reply: Reply)
      modifies this`audits
      ensures reply.Failure? && Audited(old(audits), audits, a, call, false, reply)
      ensures Recorded(call, false) ==>
                reply.error == error && audits == old(audits) + [ErrorRecord(a, error)]
    {
      var appendError := AppendAudit(ErrorRecord(a, error), call);
      reply := Failure(if appendError.Some? then State(appendError.value) else error);
    }

    method FinishAllowed(a: Attempt, record: Audit, content: Json, call: ToolCall)
      returns (reply: Reply)
      requires Describes(record, a) && record.decision == Allow && record.errorCode == None
      modifies this`audits
      ensures Audited(old(audits), audits, a, call, false, reply)
      ensures Recorded(call, false) ==>
                reply == Success(content) && audits == old(audits) + [record]
    {
      var appendError := AppendAudit(record, call);
      reply := if appendError.Some? then Failure(State(appendError.value)) else Success(content);
    }

    method RejectInvalidAttempt(call: ToolCall, error: ServiceError) returns (reply: Reply)
      modifies this
      ensures sequence == old(sequence) + 1
      ensures var a := AttemptOf(call, EventId(process, call.nanos, old(sequence)),
                                 ScheduleOperation(call.tool), call.requestHint, call.jobHint);
              && Audited(old(audits), audits, a, call, false, reply)
              && (Recorded(call, false) ==> audits == old(audits) + [ErrorRecord(a, error)])
      ensures reply.Failure? && (Recorded(call, false) ==> reply.error == error)
    {
      var a := AuditAttempt(call, ScheduleOperation(call.tool), call.requestHint, call.jobHint);
      reply := FinishErrorAttempt(a, error, call);
    }

    /** The store's answer decides; only an applied mutation is recorded by the store itself. */
    method ApplyMutation(call: ToolCall, op: Operation, p: Prepared, a: Attempt)
      returns (reply: Reply)
      requires call.arguments.Fields? && ToolOperation(call.tool) == Some(op) && IsMutation(op)
      requires Preparation(call, op) == Ok(p)
      requires a == AttemptFor(call, a.eventId)
      modifies this`audits
      ensures Audited(old(audits), audits, a, call, StoreApplies(call), reply)
      ensures Recorded(call, StoreApplies(call)) ==>
                reply == Answered(call.answer, p) && audits == old(audits) + [RecordFor(call, a)]
    {
      match call.answer {
        case StoreError(error) => reply := FinishErrorAttempt(a, State(error), call);
        case Applied =>
          audits := audits + [AppliedRecord(a, call, op, p)];
          reply := Success(Canonicalize(p.response));
        case Replay(response) =>
          if response.None? {
            reply := FinishErrorAttempt(a, State(InvalidSchedulerState), call);
          } else {
            reply := FinishAllowed(a, ReplayRecord(a), response.value, call);
          }
        case InProgress => reply := FinishErrorAttempt(a, IdempotencyInProgress, call);
        case Conflict => reply := FinishErrorAttempt(a, IdempotencyConflict, call);
      }
    }

    method Mutate(call: ToolCall, op: Operation) returns (reply: Reply)
      requires call.arguments.Fields? && ToolOperation(call.tool) == Some(op) && IsMutation(op)
      modifies this
      ensures Served(old(View()), Arrival(call, true), View(), reply)
    {
      var jobId := if op.CreateOp? then None else Some(call.arguments.jobId);
      var a := AuditAttempt(call, Name(op), Some(call.arguments.requestId), jobId);
      match Preparation(call, op) {
        case Ok(p) => reply := ApplyMutation(call, op, p, a);
        case Err(error) => reply := FinishErrorAttempt(a, error, call);
      }
    }

    method Read(call: ToolCall, op: Operation) returns (reply: Reply)
      requires call.arguments.Fields? && ToolOperation(call.tool) == Some(op) && !IsMutation(op)
      modifies this
      ensures Served(old(View()), Arrival(call, true), View(), reply)
    {
      var jobId := Some(call.arguments.jobId);
      var a;
      if op.GetOp? {
        a := AuditAttempt(call, "get", jobId, jobId);
      } else {
        a := AuditAttempt(call, "list", Some("list"), None);
      }
      match call.readResult {
        case Ok(value) =>
          reply := FinishAllowed(a, ReadRecord(a, value.1), value.0, call);
        case Err(error) => reply := FinishErrorAttempt(a, error, call);
      }
    }

    /** Every path through the handler takes one sequence number and is audited once. */
    method HandleToolCall(call: ToolCall) returns (reply: Reply)
      modifies this
      ensures Served(old(View()), Arrival(call, true), View(), reply)
    {
      var op := ToolOperation(call.tool);
      if op.None? {
        var reason := "unsupported dynamic tool: " + call.tool;
        reply := RejectInvalidAttempt(call, InvalidRequest(reason));
      } else if call.arguments.Malformed? {
        reply := RejectInvalidAttempt(call, InvalidRequest(call.arguments.reason));
      } else if IsMutation(op.value) {
        reply := Mutate(call, op.value);
      } else {
        reply := Read(call, op.value);
      }
    }

    /** A caller without authority is turned away before anything is parsed, and audited. */
    method RejectUnauthorizedToolCall(call: ToolCall) returns (reply: Reply)
      modifies this
      ensures Served(old(View()), Arrival(call, false), View(), reply)
      ensures reply.Failure? && (Recorded(call, false) ==> reply.error == Unauthorized)
    {
      reply := RejectInvalidAttempt(call, Unauthorized);
    }
  }

  // ---------------------------------------------------------------- whole runs

  /** Calls served one after the other, with the log before, between and after them. */
  ghost predicate ServedInTurn(logs: seq<Log>, calls: seq<Arrival>, replies: seq<Reply>) {
    && |logs| == |calls| + 1 && |replies| == |calls|
    && forall i | 0 <= i < |calls| :: Served(logs[i], calls[i], logs[i + 1], replies[i])
  }

  /** How many of the first k calls left a record. */
  function RecordCount(calls: seq<Arrival>, k: nat): nat
    requires k <= |calls|
  {
    if k == 0 then 0
    else RecordCount(calls, k - 1) + if IsRecorded(calls[k - 1]) then 1 else 0
  }

  /** A call's record: its id, and whether it allows exactly when the caller succeeded. */
  ghost predicate Matches(record: Audit, log: Log, call: ToolCall, reply: Reply) {
    && record.auditId == EventId(log.process, call.nanos, log.sequence)
    && (record.decision == Allow <==> reply.Success?)
  }

  /** What a call adds to the log; one whose record was not kept adds nothing and has failed. */
  ghost predicate Grew(before: Log, arrival: Arrival, after: Log, reply: Reply) {
    && after.process == before.process && after.sequence == before.sequence + 1
    && if IsRecorded(arrival) then
         && |after.audits| == |before.audits| + 1 && before.audits <= after.audits
         && Matches(after.audits[|before.audits|], before, arrival.call, reply)
       else
         after.audits == before.audits && reply.Failure?
  }

  lemma ServedGrows(before: Log, arrival: Arrival, after: Log, reply: Reply)
    requires Served(before, arrival, after, reply)
    ensures Grew(before, arrival, after, reply)
  {
  }

  ghost predicate GrewInTurn(logs: seq<Log>, calls: seq<Arrival>, replies: seq<Reply>) {
    && |logs| == |calls| + 1 && |replies| == |calls|
    && forall i | 0 <= i < |calls| :: Grew(logs[i], calls[i], logs[i + 1], replies[i])
  }

  lemma {:induction false} LogsGrow(logs: seq<Log>, calls: seq<Arrival>, replies: seq<Reply>,
                                    k: nat)
    requires GrewInTurn(logs, calls, replies) && k <= |calls|
    ensures logs[k].process == logs[0].process && logs[k].sequence == logs[0].sequence + k
    ensures |logs[k].audits| == |logs[0].audits| + RecordCount(calls, k)
    ensures logs[0].audits <= logs[k].audits
  {
    if k > 0 {
      LogsGrow(logs, calls, replies, k - 1);
      assert Grew(logs[k - 1], calls[k - 1], logs[k], replies[k - 1]);
    }
  }

  lemma {:induction false} RecordsStay(logs: seq<Log>, calls: seq<Arrival>, replies: seq<Reply>,
                                       i: nat, k: nat)
    requires GrewInTurn(logs, calls, replies) && i <= k <= |calls|
    ensures logs[i].audits <= logs[k].audits
    decreases k
  {
    if i < k {
      RecordsStay(logs, calls, replies, i, k - 1);
      assert Grew(logs[k - 1], calls[k - 1], logs[k], replies[k - 1]);
    }
  }

  lemma RecordMatches(logs: seq<Log>, calls: seq<Arrival>, replies: seq<Reply>, i: nat)
    requires GrewInTurn(logs, calls, replies) && i < |calls| && IsRecorded(calls[i])
    ensures var at, audits := |logs[0].audits| + RecordCount(calls, i), logs[|calls|].audits;
            at < |audits| && Matches(audits[at], logs[i], calls[i].call, replies[i])
    ensures logs[i].process == logs[0].process && logs[i].sequence == logs[0].sequence + i
  {
    LogsGrow(logs, calls, replies, i);
    RecordsStay(logs, calls, replies, i + 1, |calls|);
    assert Grew(logs[i], calls[i], logs[i + 1], replies[i]);
  }

  lemma ServedRunsGrow(logs: seq<Log>, calls: seq<Arrival>, replies: seq<Reply>)
    requires ServedInTurn(logs, calls, replies)
    ensures GrewInTurn(logs, calls, replies)
  {
    forall i | 0 <= i < |calls| ensures Grew(logs[i], calls[i], logs[i + 1], replies[i]) {
      ServedGrows(logs[i], calls[i], logs[i + 1], replies[i]);
    }
  }

  /**
  Over any run of handled and rejected calls: one record per call whose record is kept, in order
  and behind what was there before, each allowing exactly when its caller succeeded; a caller whose
  record is not kept has failed.
  */
  lemma RunsAreAudited(logs: seq<Log>, calls: seq<Arrival>, replies: seq<Reply>, i: nat)
    requires ServedInTurn(logs, calls, replies) && i < |calls|
    ensures var first, audits := |logs[0].audits|, logs[|calls|].audits;
            && |audits| == first + RecordCount(calls, |calls|)
            && logs[0].audits <= audits
            && if IsRecorded(calls[i]) then
                 var at := first + RecordCount(calls, i);
                 at < |audits| && (audits[at].decision == Allow <==> replies[i].Success?)
               else replies[i].Failure?
  {
    ServedRunsGrow(logs, calls, replies);
    LogsGrow(logs, calls, replies, |calls|);
    if IsRecorded(calls[i]) {
      RecordMatches(logs, calls, replies, i);
    } else {
      assert Grew(logs[i], calls[i], logs[i + 1], replies[i]);
    }
  }

  /** And no two of them have the same id. */
  lemma AuditIdsNeverRepeat(logs: seq<Log>, calls: seq<Arrival>, replies: seq<Reply>,
                            i: nat, j: nat)
    requires ServedInTurn(logs, calls, replies) && i < j < |calls|
    requires IsRecorded(calls[i]) && IsRecorded(calls[j])
    ensures var first, audits := |logs[0].audits|, logs[|calls|].audits;
            var k, l := first + RecordCount(calls, i), first + RecordCount(calls, j);
            k < |audits| && l < |audits| && audits[k].auditId != audits[l].auditId
  {
    ServedRunsGrow(logs, calls, replies);
    RecordMatches(logs, calls, replies, i);
    RecordMatches(logs, calls, replies, j);
    var process, m, n := logs[0].process, logs[i].sequence, logs[j].sequence;
    var s, t := calls[i].call.nanos, calls[j].call.nanos;
    if EventId(process, s, m) == EventId(process, t, n) {
      EventIdsAreUnique(process, s, m, t, n);
    }
  }
}
