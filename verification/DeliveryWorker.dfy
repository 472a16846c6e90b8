/**
One scheduled-delivery worker and the heartbeat task it spawns per claim, as a machine whose
steps interleave freely with shutdown requests. Every store answer, provider answer, timer and
clock reading is an input, so a run is any sequence of inputs. What the worker does to the
store and the provider is recorded in a history.
*/
module DeliveryWorker {
  import opened MachineInts
  import opened SchedulerPolicy
  import opened DeliveryState

  const DELIVERY_POLICY_VERSION: U32 := 1

  /** The identity of a peeked authority snapshot. */
  type Authority = nat

  datatype Claim = Claim(
    id: nat,
    authority: Authority,
    deliveryId: seq<bv8>,
    attempt: I64,
    createdAt: I64,
    policyVersion: U32,
    policy: Policy
  )

  datatype ProviderOutcome =
    | ConfirmedSuccess(receipt: string)
    | ConfirmedNoWriteRetryable(retryAfter: Option<U64>, kind: string)
    | ConfirmedNoWriteTerminal(kind: string)
    | AmbiguousPostWrite(kind: string)

  /** Why a claim is completed: nothing was sent, or an outcome of its send is reported. */
  datatype Decision =
    | Release
    | DeadlineExceeded
    | Report(outcome: ProviderOutcome)

  /** What the store is told about a completed claim. */
  datatype Completion =
    | Delivered(receipt: string)
    | NoWriteRetryable(kind: string, nextAttemptAt: I64)
    | NoWriteTerminal(kind: string)
    | Ambiguous(kind: string)

  datatype StoreError = LostAuthority | TransientContention | OtherError

  datatype Answer = Done | Refused(error: StoreError)

  // ---------------------------------------------------------------- histories

  datatype Effect =
    | Probed(authority: Authority, verdict: Readiness)
    | Deferring(policy: Policy, streak: U32, hint: Option<U64>)
    | Claimed(claim: Claim, at: I64)
    | LeaseRenewed(at: I64, expiresAt: int, final: bool)
    | LeaseAnswered(answer: Answer)
    | SendStarted(decidedAt: I64)
    | SendAnswered(outcome: ProviderOutcome)
    | HeartbeatJoined
    | Completed(decision: Decision, at: I64)
    | ClaimClosed

  /** A history with its newest effect outermost. */
  datatype History = Empty | Then(past: History, effect: Effect)

  /** What one step does, in order. */
  datatype Effects = Nothing | One(first: Effect) | Two(first: Effect, second: Effect)

  function Append(h: History, es: Effects): History {
    match es
    case Nothing => h
    case One(e) => Then(h, e)
    case Two(e, f) => Then(Then(h, e), f)
  }

  // ---------------------------------------------------------------- the worker

  datatype TickOutcome =
    | Idle
    | Cancelled
    | SkippedNone
    | SkippedUnchanged
    | ReadinessDeferred(policy: Policy, streak: U32, hint: Option<U64>)
    | RejectedUnsent
    | Committed(decision: Decision, at: I64)
    | LostFence

  datatype TickResult = Ended(outcome: TickOutcome) | Failed(error: StoreError) | Unwound

  datatype AfterJoin =
    | ThenRelease
    | ThenDeadlineFailure(decidedAt: I64)
    | ThenFinalize(outcome: ProviderOutcome)
    | ThenUnwind

  datatype Pc =
    // outside any claim
    | LoopTop
    | TickTop
    | Reclaiming
    | PrepareGate
    | PreparePoll
    | Peeking
    | SkipGate(skipped: Authority)
    | Skipping
    | ProbeGate(probe: Authority, policy: Policy)
    | ProbePoll(probe: Authority, policy: Policy)
    | Rejecting
    | ClaimGate(ready: Authority)
    | Claiming(ready: Authority, claimAt: I64)
    | Pausing
    | Halted(result: TickResult)
    // holding a claim
    | DispatchGate
    | DeadlineGate
    | CancelPoll(decidedAt: I64)
    | HeartbeatPoll(decidedAt: I64)
    | SendPoll(decidedAt: I64)
    | TimerPoll(decidedAt: I64)
    | Joining(next: AfterJoin)
    | Releasing
    | DeadlineFailing(decidedAt: I64)
    | Finalizing(outcome: ProviderOutcome)
    | FinalRenewing(outcome: ProviderOutcome)
    | Completing(outcome: ProviderOutcome)
    | Committing(decision: Decision, at: I64, timed: bool)

  datatype HeartbeatEnd = Stopped | Died(error: StoreError) | Panicked

  datatype Heartbeat =
    | Absent
    | Sleeping(stopRequested: bool)
    | Renewing(stopRequested: bool)
    | Finished(end: HeartbeatEnd)
    | Joined

  datatype State = State(
    shutdown: bool,
    last: I64,
    pc: Pc,
    claim: Option<Claim>,
    heartbeat: Heartbeat,
    sendPolled: bool,
    streak: U32,
    claims: nat,
    emitted: Effects
  )

  const INITIAL: State := State(false, 0, LoopTop, None, Absent, false, 0, 0, Nothing)

  datatype Preparation =
    | NothingPrepared
    | PreparedPayload
    | PreparedSkipNone
    | PreparedSkipUnchanged

  /** Work that needs the provider comes with the policy it was scheduled under. */
  datatype Work =
    | NoWork
    | SkipUnchanged(skipped: Authority)
    | ProviderRequired(required: Authority, policy: Policy)

  /** What the environment contributes to one step of the worker. */
  datatype Input =
    | Proceed(clock: I64)
    | StoreAnswer(answer: Answer)
    | PrepareAnswer(preparation: Preparation)
    | PeekAnswer(work: Work)
    | FlagAnswer(flag: bool)
    | VerdictAnswer(verdict: Readiness)
    | ClaimAnswer(deliveryId: seq<bv8>, attempt: I64, createdAt: I64, policyVersion: U32,
                  policy: Policy)
    | NoClaim
    | NotReady
    | Elapsed
    | JoinAborted(end: HeartbeatEnd)
    | SendOutcome(outcome: ProviderOutcome)
    | SendPanicked

  datatype HeartbeatInput =
    | IntervalElapsed(clock: I64)
    | StopSeen
    | RenewAnswer(answer: Answer)
    | HeartbeatPanics

  /** The clock is also read where the model shows no step, such as inside the store's claim. */
  datatype Event =
    | RequestShutdown
    | ClockRead(observed: I64)
    | Worker(input: Input)
    | Beat(beat: HeartbeatInput)

  // ---------------------------------------------------------------- effects of the worker

  function Emit(s: State, e: Effect): State
    requires !s.emitted.Two?
  {
    s.(emitted := if s.emitted.Nothing? then One(e) else Two(s.emitted.first, e))
  }

  /** Leaving a tick drops the claim, if any; the worker then pauses or halts. */
  function EndTick(s: State, result: TickResult): State
    requires s.emitted.Two? ==> s.claim.None?
  {
    var closed := if s.claim.Some? then Emit(s, ClaimClosed) else s;
    var halts := match result
      case Ended(Cancelled) => true
      case Ended(_) => false
      case Failed(TransientContention) => false
      case _ => true;
    closed.(claim := None, heartbeat := Absent, pc := if halts then Halted(result) else Pausing)
  }

  function AuthorityError(s: State, error: StoreError): State
    requires !s.emitted.Two?
  {
    EndTick(s, if error.LostAuthority? then Ended(LostFence) else Failed(error))
  }

  function StartJoin(s: State, next: AfterJoin): State {
    var stopped := match s.heartbeat
      case Sleeping(_) => Sleeping(true)
      case Renewing(_) => Renewing(true)
      case other => other;
    s.(heartbeat := stopped, pc := Joining(next))
  }

  function Complete(s: State, decision: Decision, at: I64, timed: bool): State
    requires !s.emitted.Two?
  {
    Emit(s, Completed(decision, at)).(pc := Committing(decision, at, timed))
  }

  predicate PastDeadline(c: Claim, now: I64) {
    match DeliveryDeadlineAt(c.policy, c.createdAt)
    case None => true
    case Some(deadline) => now >= deadline
  }

  // ---------------------------------------------------------------- completions

  /** The retry time for a no-write answer; payloads of another policy version get none. */
  function RetryAt(c: Claim, now: I64, retryAfter: Option<U64>): Option<I64> {
    if c.policyVersion != DELIVERY_POLICY_VERSION then None
    else DeliveryRetryAt(c.policy, c.deliveryId, c.attempt, c.createdAt, now, retryAfter)
  }

  function RetryOrGiveUp(next: Option<I64>, kind: string): Completion {
    match next
    case Some(at) => NoWriteRetryable(kind, at)
    case None => NoWriteTerminal("delivery_retry_exhausted")
  }

  /** What the store is told for a decision taken at the given time. */
  function CompletionOf(c: Claim, decision: Decision, now: I64): Completion {
    match decision
    case Release =>
      RetryOrGiveUp(
        DeliveryRetryAt(c.policy, c.deliveryId, c.attempt, c.createdAt, now, None),
        "cancelled_before_dispatch")
    case DeadlineExceeded => NoWriteTerminal("delivery_deadline_exceeded")
    case Report(ConfirmedSuccess(receipt)) => Delivered(receipt)
    case Report(ConfirmedNoWriteRetryable(retryAfter, kind)) =>
      RetryOrGiveUp(RetryAt(c, now, retryAfter), kind)
    case Report(ConfirmedNoWriteTerminal(kind)) => NoWriteTerminal(kind)
    case Report(AmbiguousPostWrite(kind)) => Ambiguous(kind)
  }

  // ---------------------------------------------------------------- steps outside a claim

  function IdleStep(s: State, i: Input): State
    requires s.emitted.Nothing?
  {
    match (s.pc, i)
    case (LoopTop, Proceed(_)) =>
      if s.shutdown then s.(pc := Halted(Ended(Cancelled))) else s.(pc := TickTop)
    case (TickTop, Proceed(clock)) =>
      if s.shutdown then EndTick(s, Ended(Cancelled))
      else s.(pc := Reclaiming, last := Advance(s.last, clock))
    case (Reclaiming, StoreAnswer(Done)) => s.(pc := PrepareGate)
    case (Reclaiming, StoreAnswer(Refused(error))) => EndTick(s, Failed(error))
    case (PrepareGate, Proceed(clock)) =>
      if s.shutdown then EndTick(s, Ended(Cancelled))
      else s.(pc := PreparePoll, last := Advance(s.last, clock))
    case (PreparePoll, PrepareAnswer(preparation)) =>
      if s.shutdown then EndTick(s, Ended(Cancelled))
      else (match preparation
            case PreparedSkipNone => EndTick(s, Ended(SkippedNone))
            case PreparedSkipUnchanged => EndTick(s, Ended(SkippedUnchanged))
            case _ => s.(pc := Peeking))
    case (PreparePoll, StoreAnswer(Refused(error))) =>
      if s.shutdown then EndTick(s, Ended(Cancelled)) else EndTick(s, Failed(error))
    case (PreparePoll, NotReady) => if s.shutdown then EndTick(s, Ended(Cancelled)) else s
    case (Peeking, PeekAnswer(NoWork)) => EndTick(s, Ended(Idle))
    case (Peeking, PeekAnswer(SkipUnchanged(a))) => s.(pc := SkipGate(a))
    case (Peeking, PeekAnswer(ProviderRequired(a, policy))) => s.(pc := ProbeGate(a, policy))
    case (Peeking, StoreAnswer(Refused(error))) => EndTick(s, Failed(error))
    case (SkipGate(_), Proceed(clock)) =>
      if s.shutdown then EndTick(s, Ended(Cancelled))
      else s.(pc := Skipping, last := Advance(s.last, clock))
    case (Skipping, FlagAnswer(skipped)) =>
      EndTick(s, Ended(if skipped then SkippedUnchanged else Idle))
    case (Skipping, StoreAnswer(Refused(error))) => EndTick(s, Failed(error))
    case (Rejecting, FlagAnswer(rejected)) =>
      EndTick(s, Ended(if rejected then RejectedUnsent else Idle))
    case (Rejecting, StoreAnswer(Refused(error))) => EndTick(s, Failed(error))
    case (Pausing, Proceed(_)) =>
      s.(pc := if s.shutdown then Halted(Ended(Cancelled)) else LoopTop)
    case _ => s
  }

  /** A deferred probe ends the tick; the wait follows from the streak it found. */
  function Defer(s: State, a: Authority, policy: Policy, hint: Option<U64>): State
    requires s.emitted.Nothing? && s.claim.None?
  {
    var probed := Emit(Emit(s, Probed(a, Deferred(hint))), Deferring(policy, s.streak, hint));
    EndTick(probed.(streak := StreakAfterDeferral(s.streak)),
            Ended(ReadinessDeferred(policy, s.streak, hint)))
  }

  /** The probe is polled after cancellation and before its own timer. */
  function ProbePollStep(s: State, i: Input): State
    requires s.emitted.Nothing? && s.claim.None? && s.pc.ProbePoll?
  {
    var a, policy := s.pc.probe, s.pc.policy;
    if s.shutdown && (i.VerdictAnswer? || i.Elapsed? || i.NotReady?)
    then EndTick(s, Ended(Cancelled))
    else
      match i
      case VerdictAnswer(Ready) => Emit(s, Probed(a, Ready)).(streak := 0, pc := ClaimGate(a))
      case VerdictAnswer(Deferred(hint)) => Defer(s, a, policy, hint)
      case VerdictAnswer(RejectDelivery) => Emit(s, Probed(a, RejectDelivery)).(pc := Rejecting)
      case VerdictAnswer(FatalProvider) =>
        EndTick(Emit(s, Probed(a, FatalProvider)), Failed(OtherError))
      case Elapsed => Defer(s, a, policy, None)
      case _ => s
  }

  function ClaimStep(s: State, i: Input): State
    requires s.emitted.Nothing?
  {
    match (s.pc, i)
    case (ProbeGate(a, policy), Proceed(_)) =>
      if s.shutdown then EndTick(s, Ended(Cancelled)) else s.(pc := ProbePoll(a, policy))
    case (ClaimGate(a), Proceed(clock)) =>
      if s.shutdown then EndTick(s, Ended(Cancelled))
      else
        var now := Advance(s.last, clock);
        s.(pc := Claiming(a, now), last := now)
    case (Claiming(_, _), NoClaim) => EndTick(s, Ended(Idle))
    case (Claiming(_, _), StoreAnswer(Refused(error))) => EndTick(s, Failed(error))
    case (Claiming(a, at), ClaimAnswer(deliveryId, attempt, createdAt, version, policy)) =>
      var c := Claim(s.claims, a, deliveryId, attempt, createdAt, version, policy);
      Emit(s, Claimed(c, at)).(claim := Some(c), claims := s.claims + 1,
                               heartbeat := Sleeping(false), sendPolled := false,
                               pc := DispatchGate)
    case _ => s
  }

  function ProbeStep(s: State, i: Input): State
    requires s.emitted.Nothing? && s.claim.None?
  {
    if s.pc.ProbePoll? then ProbePollStep(s, i) else ClaimStep(s, i)
  }

  // ---------------------------------------------------------------- steps holding a claim

  /** The checks between a claim and its send. */
  function GateStep(s: State, i: Input): State
    requires s.claim.Some? && s.emitted.Nothing?
  {
    if !i.Proceed? then s
    else if s.pc.DispatchGate? then
      if s.shutdown then StartJoin(s, ThenRelease) else s.(pc := DeadlineGate)
    else
      var now := Advance(s.last, i.clock);
      if PastDeadline(s.claim.value, now)
      then StartJoin(s.(last := now), ThenDeadlineFailure(now))
      else s.(last := now, pc := CancelPoll(now))
  }

  /** The biased select polls cancellation, then the heartbeat, then the send, then the timer. */
  function SelectStep(s: State, i: Input): State
    requires s.claim.Some? && s.emitted.Nothing?
  {
    match s.pc
    case CancelPoll(decidedAt) =>
      if !i.Proceed? then s
      else if !s.shutdown then s.(pc := HeartbeatPoll(decidedAt))
      else if s.sendPolled
      then StartJoin(s, ThenFinalize(AmbiguousPostWrite("cancelled_after_dispatch")))
      else StartJoin(s, ThenRelease)
    case HeartbeatPoll(decidedAt) =>
      if !i.Proceed? then s
      else (match s.heartbeat
            case Finished(Died(error)) => AuthorityError(s, error)
            case Finished(Stopped) => EndTick(s, Failed(OtherError))
            case Finished(Panicked) => EndTick(s, Unwound)
            case _ => s.(pc := SendPoll(decidedAt)))
    case TimerPoll(decidedAt) =>
      if i.Elapsed? then StartJoin(s, ThenFinalize(AmbiguousPostWrite("provider_timeout")))
      else if i.NotReady? then s.(pc := CancelPoll(decidedAt))
      else s
    case _ => s
  }

  function SendPollStep(s: State, i: Input): State
    requires s.claim.Some? && s.pc.SendPoll? && s.emitted.Nothing?
  {
    var polled := PollSend(s, s.pc.decidedAt);
    match i
    case NotReady => polled.(pc := TimerPoll(s.pc.decidedAt))
    case SendOutcome(outcome) =>
      StartJoin(Emit(polled, SendAnswered(outcome)), ThenFinalize(outcome))
    case SendPanicked => StartJoin(polled, ThenUnwind)
    case _ => s
  }

  /** Polling the send raises its flag, and starts the send the first time. */
  function PollSend(s: State, decidedAt: I64): State
    requires s.emitted.Nothing?
  {
    if s.sendPolled then s else Emit(s, SendStarted(decidedAt)).(sendPolled := true)
  }

  /** Joining the stopped heartbeat; a join that times out aborts it and always fails. */
  function JoinStep(s: State, i: Input): State
    requires s.claim.Some? && s.pc.Joining? && s.emitted.Nothing?
  {
    var next := s.pc.next;
    match (s.heartbeat, i)
    case (Finished(Stopped), Proceed(_)) =>
      var joined := Emit(s, HeartbeatJoined).(heartbeat := Joined);
      (match next
       case ThenRelease => joined.(pc := Releasing)
       case ThenDeadlineFailure(at) => joined.(pc := DeadlineFailing(at))
       case ThenFinalize(outcome) => joined.(pc := Finalizing(outcome))
       case ThenUnwind => EndTick(joined, Unwound))
    case (Finished(end), Proceed(_)) => JoinFailed(s, next, end)
    case (Sleeping(_), JoinAborted(end)) => JoinFailed(s, next, end)
    case (Renewing(_), JoinAborted(end)) => JoinFailed(s, next, end)
    case _ => s
  }

  function JoinFailed(s: State, next: AfterJoin, end: HeartbeatEnd): State
    requires !s.emitted.Two?
  {
    if next.ThenUnwind? then EndTick(s, Unwound)
    else match end
      case Stopped => EndTick(s, Failed(OtherError))
      case Died(error) => AuthorityError(s, error)
      case Panicked => EndTick(s, Unwound)
  }

  /** The lease is renewed once more before the outcome is committed. */
  function RenewStep(s: State, i: Input): State
    requires s.claim.Some? && s.emitted.Nothing?
  {
    match s.pc
    case Finalizing(outcome) =>
      if !i.Proceed? then s
      else
        var now := Advance(s.last, i.clock);
        var expiresAt := CheckedAdd(now, s.claim.value.policy.deliveryLeaseSeconds + 1);
        if expiresAt.None? then EndTick(s.(last := now), Failed(OtherError))
        else Emit(s, LeaseRenewed(now, expiresAt.value, true))
             .(last := now, pc := FinalRenewing(outcome))
    case FinalRenewing(outcome) =>
      (match i
       case StoreAnswer(Done) => Emit(s, LeaseAnswered(Done)).(pc := Completing(outcome))
       case StoreAnswer(Refused(error)) =>
         AuthorityError(Emit(s, LeaseAnswered(Refused(error))), error)
       case Elapsed => EndTick(s, Failed(OtherError))
       case _ => s)
    case _ => s
  }

  /** The single completion call of a claim. */
  function CompleteStep(s: State, i: Input): State
    requires s.claim.Some? && s.emitted.Nothing?
  {
    if !i.Proceed? then s
    else
      var now := Advance(s.last, i.clock);
      match s.pc
      case Releasing => Complete(s.(last := now), Release, now, true)
      case DeadlineFailing(at) => Complete(s, DeadlineExceeded, at, false)
      case Completing(outcome) => Complete(s.(last := now), Report(outcome), now, true)
      case _ => s
  }

  /** Its answer ends the tick; the finalization timer can fire instead. */
  function CommitStep(s: State, i: Input): State
    requires s.claim.Some? && s.pc.Committing? && s.emitted.Nothing?
  {
    match i
    case StoreAnswer(Done) => EndTick(s, Ended(Committed(s.pc.decision, s.pc.at)))
    case StoreAnswer(Refused(error)) => AuthorityError(s, error)
    case Elapsed => if s.pc.timed then EndTick(s, Failed(OtherError)) else s
    case _ => s
  }

  /** Everything up to the decision what the claim's outcome is. */
  function SendPhase(s: State, i: Input): State
    requires s.claim.Some? && s.emitted.Nothing?
  {
    if s.pc.DispatchGate? || s.pc.DeadlineGate? then GateStep(s, i)
    else if s.pc.SendPoll? then SendPollStep(s, i)
    else SelectStep(s, i)
  }

  /** Everything after the heartbeat has been joined. */
  function CompletionPhase(s: State, i: Input): State
    requires s.claim.Some? && s.emitted.Nothing?
  {
    if s.pc.Finalizing? || s.pc.FinalRenewing? then RenewStep(s, i)
    else if s.pc.Committing? then CommitStep(s, i)
    else CompleteStep(s, i)
  }

  predicate InSendPhase(pc: Pc) {
    || pc.DispatchGate? || pc.DeadlineGate? || pc.CancelPoll? || pc.HeartbeatPoll? || pc.SendPoll?
    || pc.TimerPoll?
  }

  predicate InProbePhase(pc: Pc) {
    pc.ProbeGate? || pc.ProbePoll? || pc.ClaimGate? || pc.Claiming?
  }

  function WorkerStep(s: State, i: Input): State
    requires s.emitted.Nothing?
  {
    if s.claim.None? then if InProbePhase(s.pc) then ProbeStep(s, i) else IdleStep(s, i)
    else if s.pc.Joining? then JoinStep(s, i)
    else if InSendPhase(s.pc) then SendPhase(s, i)
    else CompletionPhase(s, i)
  }

  // ---------------------------------------------------------------- the heartbeat task

  /** The spawned loop: a stop request is seen before an elapsed interval. */
  function BeatStep(s: State, b: HeartbeatInput): State
    requires s.emitted.Nothing?
  {
    match (s.heartbeat, b)
    case (Sleeping(stop), StopSeen) => if stop then s.(heartbeat := Finished(Stopped)) else s
    case (Sleeping(stop), IntervalElapsed(clock)) =>
      if stop then s.(heartbeat := Finished(Stopped))
      else if s.claim.None? then s
      else
        var now := Advance(s.last, clock);
        var expiresAt := CheckedAdd(now, s.claim.value.policy.deliveryLeaseSeconds);
        if expiresAt.None? then s.(last := now, heartbeat := Finished(Died(OtherError)))
        else Emit(s, LeaseRenewed(now, expiresAt.value, false))
             .(last := now, heartbeat := Renewing(false))
    case (Renewing(stop), RenewAnswer(answer)) =>
      Emit(s, LeaseAnswered(answer))
      .(heartbeat := if answer.Done? then Sleeping(stop) else Finished(Died(answer.error)))
    case (Sleeping(_), HeartbeatPanics) => s.(heartbeat := Finished(Panicked))
    case (Renewing(_), HeartbeatPanics) => s.(heartbeat := Finished(Panicked))
    case _ => s
  }

  function Step(s: State, e: Event): State {
    var started := s.(emitted := Nothing);
    match e
    case RequestShutdown => started.(shutdown := true)
    case ClockRead(observed) => started.(last := Advance(s.last, observed))
    case Worker(i) => WorkerStep(started, i)
    case Beat(b) => BeatStep(started, b)
  }

  /** The state and the history after any sequence of events. */
  function Run(events: seq<Event>): (State, History) {
    if events == [] then (INITIAL, Empty)
    else
      var (s, h) := Run(events[..|events| - 1]);
      var next := Step(s, events[|events| - 1]);
      (next, Append(h, next.emitted))
  }
}
