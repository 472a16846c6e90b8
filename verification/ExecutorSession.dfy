/**
One session of the remote executor: a strict exchange of frames that leads to at most one
execution, and the loop that watches the control connection while it runs. Whatever arrives,
fails or times out is part of the environment.
*/
module ExecutorSession {
  import opened MachineInts

  const REMOTE_PROTOCOL_VERSION: U64 := 2
  const MAX_READY_TTL_MILLIS: U64 := 30_000

  datatype Binding = Binding(
    runId: string,
    jobId: string,
    attempt: U32,
    fenceToken: U64,
    authorityDigest: string,
    profileDigest: string,
    deploymentEpoch: U64,
    credentialRevision: string
  )

  datatype Message =
    | ReadinessRequest(challenge: string, readyUntil: U64)
    | Admission(challenge: string, admissionNonce: string, expiresAt: U64, deploymentEpoch: U64,
                profileDigest: string)
    | Prepare(binding: Binding)
    | Start(binding: Binding, preparationNonce: string)
    | Cancel(binding: Binding)
    | OtherMessage

  datatype Frame = Frame(version: U64, nonce: string, sequence: U64, message: Message)

  datatype Read = Got(frame: Frame) | Closed | TimedOut | Broken

  datatype ExecutionResult =
    | Completed
    | Interrupted
    | ExecutionFailed
    | PreflightRejected
    | TransportLost
    | CleanupUnproven

  datatype ResultKind = CompletedKind | OutcomeUnknownKind

  datatype Outbound =
    | Ready
    | Prepared(binding: Binding, preparationNonce: string)
    | Error(code: string, retryable: bool)
    | Result(kind: ResultKind)

  datatype Action =
    | Sent(sequence: nat, nonce: string, message: Outbound)
    | ExecutionStarted
    | CancellationRaised
    | ControlLost

  /** What the loop wakes up for while the execution runs. */
  datatype Wake =
    | ExecutionDone(result: Option<ExecutionResult>)
    | Incoming(read: Read)
    | ClockFailed

  datatype CleanupWait = Cleaned(result: ExecutionResult) | TaskFailed | GraceElapsed

  /** Local steps that can fail on their own. */
  datatype Checkpoint =
    | Setup | Probe | ReadyEvidence | WriteReady | AdmissionClock | PrepareClock | Grant | Permit
    | TaskDecoding | PrepareTask | PreparedEvidence | WritePrepared | StartClock
    | WriteError | ResultEvidence | WriteResult

  datatype Env = Env(
    handshake: seq<Read>,
    wakes: seq<Wake>,
    fails: set<Checkpoint>,
    readinessNow: U64,
    admissionNow: U64,
    authorityEpoch: I64,
    authorityProfile: string,
    credentialRevision: string,
    prepareRefusal: Option<ExecutionResult>,
    preparationNonce: string,
    cleanup: CleanupWait
  )

  datatype End = Finished | Failed(reason: string) | StillRunning

  // ---------------------------------------------------------------- validation

  predicate ReadyTtlValid(readyUntil: U64, now: U64) {
    0 < Max(readyUntil - now, 0) <= MAX_READY_TTL_MILLIS
  }

  predicate AdmissionValid(env: Env, f: Frame, challenge: string)
    requires f.message.Admission?
  {
    && f.version == REMOTE_PROTOCOL_VERSION
    && f.sequence == 2
    && f.message.challenge == challenge
    && f.message.expiresAt > env.admissionNow
    && f.message.deploymentEpoch == env.authorityEpoch
    && f.message.profileDigest == env.authorityProfile
  }

  predicate BindingValid(env: Env, b: Binding) {
    && b.deploymentEpoch == env.authorityEpoch
    && b.profileDigest == env.authorityProfile
    && b.credentialRevision == env.credentialRevision
  }

  predicate StartValid(f: Frame, b: Binding, preparationNonce: string, nonce: string)
    requires f.message.Start?
  {
    && f.sequence == 4
    && f.nonce == nonce
    && f.message.binding == b
    && f.message.preparationNonce == preparationNonce
  }

  function PreparationError(result: ExecutionResult): Outbound {
    match result
    case PreflightRejected => Error("runner-preflight-rejected", false)
    case ExecutionFailed => Error("runner-preflight-rejected", false)
    case TransportLost => Error("runner-transport-lost", true)
    case CleanupUnproven => Error("runner-cleanup-unproven", true)
    case Interrupted => Error("runner-preflight-interrupted", true)
    case Completed => Error("runner-protocol-rejected", false)
  }

  function ExecutionMessage(result: ExecutionResult): Outbound {
    match result
    case CleanupUnproven => Error("runner-cleanup-unproven", true)
    case TransportLost => Result(OutcomeUnknownKind)
    case _ => Result(CompletedKind)
  }

  function CleanupFailure(wait: CleanupWait, reason: string): End {
    match wait
    case Cleaned(CleanupUnproven) =>
      Failed("scheduled runner cleanup was not proven after control loss")
    case Cleaned(_) => Failed(reason)
    case TaskFailed => Failed("scheduled runner execution task failed after control loss")
    case GraceElapsed => Failed("scheduled runner cleanup did not converge after control loss")
  }

  // ---------------------------------------------------------------- the watch loop

  datatype LoopEnd =
    | LoopCompleted(result: ExecutionResult)
    | LoopTaskFailed
    | LoopControlLost(reason: string)
    | LoopViolation(violation: string)
    | LoopClockFailed
    | LoopExhausted

  /** A Cancel frame of this session for this run. */
  predicate IsCancel(w: Wake, nonce: string, binding: Binding) {
    && w.Incoming? && w.read.Got? && w.read.frame.nonce == nonce
    && w.read.frame.message == Cancel(binding)
  }

  /** A wake-up that lets the loop go on: a quiet read, or a Cancel for this run. */
  predicate Harmless(w: Wake, nonce: string, binding: Binding) {
    w == Incoming(TimedOut) || IsCancel(w, nonce, binding)
  }

  /** The connection is gone: closed, broken, or carrying another session's frame. */
  predicate LosesControl(w: Wake, nonce: string) {
    && w.Incoming?
    && (w.read.Closed? || w.read.Broken? || (w.read.Got? && w.read.frame.nonce != nonce))
  }

  /** A frame of this session that is no Cancel for this run. */
  predicate Violates(w: Wake, nonce: string, binding: Binding) {
    && w.Incoming? && w.read.Got? && w.read.frame.nonce == nonce
    && w.read.frame.message != Cancel(binding)
  }

  /** The wake-up that ends the loop: the first one that is not harmless. */
  function Decisive(wakes: seq<Wake>, nonce: string, binding: Binding): (k: nat)
    ensures k <= |wakes|
    ensures k < |wakes| ==> !Harmless(wakes[k], nonce, binding)
    ensures forall i | 0 <= i < k :: Harmless(wakes[i], nonce, binding)
  {
    if wakes == [] || !Harmless(wakes[0], nonce, binding) then 0
    else 1 + Decisive(wakes[1..], nonce, binding)
  }

  /** Whether the peer cancelled this run before that. */
  ghost predicate CancelledBefore(wakes: seq<Wake>, nonce: string, binding: Binding, k: nat)
    requires k <= |wakes|
  {
    exists i | 0 <= i < k :: IsCancel(wakes[i], nonce, binding)
  }

  /** A connection the peer closed is told apart from one that broke. */
  function LossReason(w: Wake): string {
    if w == Incoming(Closed) then "scheduled runner control disconnected during execution"
    else "scheduled runner control transport failed"
  }

  /** What the deciding wake-up means; a protocol violation is not a loss of control. */
  ghost predicate Means(w: Wake, nonce: string, binding: Binding, end: LoopEnd) {
    match end
    case LoopCompleted(result) => w == ExecutionDone(Some(result))
    case LoopTaskFailed => w == ExecutionDone(None)
    case LoopControlLost(reason) => LosesControl(w, nonce) && reason == LossReason(w)
    case LoopViolation(_) => Violates(w, nonce, binding)
    case LoopClockFailed => w == ClockFailed
    case LoopExhausted => false
  }

  lemma {:induction false} DecisiveIsFirst(wakes: seq<Wake>, nonce: string, binding: Binding,
                                           k: nat)
    requires k <= |wakes| && (k < |wakes| ==> !Harmless(wakes[k], nonce, binding))
    requires forall i | 0 <= i < k :: Harmless(wakes[i], nonce, binding)
    ensures Decisive(wakes, nonce, binding) == k
  {
    if k > 0 {
      DecisiveIsFirst(wakes[1..], nonce, binding, k - 1);
    }
  }

  method WatchExecution(wakes: seq<Wake>, nonce: string, binding: Binding)
    returns (end: LoopEnd, raised: bool)
    ensures var k := Decisive(wakes, nonce, binding);
            && (raised <==> CancelledBefore(wakes, nonce, binding, k))
            && (k == |wakes| <==> end.LoopExhausted?)
            && (k < |wakes| ==> Means(wakes[k], nonce, binding, end))
  {
    raised := false;
    var at := 0;
    while at < |wakes|
      invariant at <= |wakes|
      invariant forall i | 0 <= i < at :: Harmless(wakes[i], nonce, binding)
      invariant raised <==> CancelledBefore(wakes, nonce, binding, at)
    {
      var wake := wakes[at];
      if !Harmless(wake, nonce, binding) {
        DecisiveIsFirst(wakes, nonce, binding, at);
      }
      match wake {
        case ExecutionDone(result) =>
          end := if result.Some? then LoopCompleted(result.value) else LoopTaskFailed;
          return;
        case ClockFailed =>
          end := LoopClockFailed;
          return;
        case Incoming(TimedOut) =>
        case Incoming(Closed) =>
          end := LoopControlLost("scheduled runner control disconnected during execution");
          return;
        case Incoming(Broken) =>
          end := LoopControlLost("scheduled runner control transport failed");
          return;
        case Incoming(Got(frame)) =>
          if frame.nonce != nonce {
            end := LoopControlLost("scheduled runner control transport failed");
            return;
          }
          if !frame.message.Cancel? {
            end := LoopViolation("scheduled runner received invalid execution frame");
            return;
          }
          if frame.message.binding != binding {
            end := LoopViolation("scheduled runner cancel binding mismatch");
            return;
          }
          raised := true;
      }
      at := at + 1;
    }
    DecisiveIsFirst(wakes, nonce, binding, at);
    end := LoopExhausted;
  }

  // ---------------------------------------------------------------- the session

  function ReadAt(env: Env, i: nat): Read {
    if i < |env.handshake| then env.handshake[i] else Closed
  }

  /** The inbound frames that lead to an execution: a readiness request, */
  ghost predicate RequestsReadiness(env: Env) {
    && ReadAt(env, 0).Got?
    && var r := env.handshake[0].frame;
       && r.message.ReadinessRequest? && r.sequence == 1
       && ReadyTtlValid(r.message.readyUntil, env.readinessNow)
  }

  /** an admission that answers its challenge, */
  ghost predicate Admits(env: Env) {
    && RequestsReadiness(env)
    && ReadAt(env, 1).Got?
    && env.handshake[1].frame.message.Admission?
    && AdmissionValid(env, env.handshake[1].frame, env.handshake[0].frame.message.challenge)
  }

  /** a preparation under the admission's session nonce, */
  ghost predicate Prepares(env: Env) {
    && Admits(env)
    && ReadAt(env, 2).Got?
    && var p := env.handshake[2].frame;
       && p.message.Prepare? && p.sequence == 3 && p.nonce == env.handshake[1].frame.nonce
       && BindingValid(env, p.message.binding)
  }

  /** and a start under the same nonce, for the same binding and the emitted preparation nonce. */
  ghost predicate Handshake(env: Env) {
    && Prepares(env)
    && ReadAt(env, 3).Got?
    && var s := env.handshake[3].frame;
       && s.message.Start? && s.sequence == 4 && s.nonce == env.handshake[1].frame.nonce
       && s.message.binding == env.handshake[2].frame.message.binding
       && s.message.preparationNonce == env.preparationNonce
  }

  predicate AbleToGreet(env: Env) {
    && env.fails !! {Setup, Probe, ReadyEvidence, WriteReady, AdmissionClock}
    && env.authorityEpoch >= 0
  }

  predicate AbleToPrepare(env: Env) {
    && env.fails !! {PrepareClock, Grant, Permit, TaskDecoding, PrepareTask, PreparedEvidence}
    && env.prepareRefusal.None?
    && ReadAt(env, 2).Got? && env.handshake[2].frame.message.Prepare?
    && env.handshake[2].frame.message.binding.fenceToken <= I64_MAX
  }

  /** Nothing local stands in the way of an execution. */
  predicate LocallyAble(env: Env) {
    AbleToGreet(env) && AbleToPrepare(env) && env.fails !! {WritePrepared, StartClock}
  }

  /** Cancellation raised by the peer while the execution ran. */
  ghost function PeerCancellation(env: Env, nonce: string, binding: Binding): seq<Action> {
    var k := Decisive(env.wakes, nonce, binding);
    if CancelledBefore(env.wakes, nonce, binding, k) then [CancellationRaised] else []
  }

  /** What the deciding wake-up leads to. */
  function Ending(env: Env, nonce: string, binding: Binding): seq<Action> {
    var k := Decisive(env.wakes, nonce, binding);
    if k < |env.wakes| && env.wakes[k].ExecutionDone? && env.wakes[k].result.Some? then
      var message := ExecutionMessage(env.wakes[k].result.value);
      if ResultEvidence in env.fails && message.Result? then [] else [Sent(3, nonce, message)]
    else if k < |env.wakes| && LosesControl(env.wakes[k], nonce) then
      [ControlLost, CancellationRaised]
    else
      []
  }

  /** The frames a session sends and what it does with its execution, from the start on. */
  ghost predicate ExecutionTrace(env: Env, nonce: string, binding: Binding, tail: seq<Action>) {
    tail == PeerCancellation(env, nonce, binding) + Ending(env, nonce, binding)
  }

  method Execute(env: Env, nonce: string, binding: Binding) returns (tail: seq<Action>, end: End)
    ensures ExecutionTrace(env, nonce, binding, tail)
    ensures end == Finished <==> tail != [] && tail[|tail| - 1].Sent? && WriteResult !in env.fails
    ensures end == StillRunning <==> Decisive(env.wakes, nonce, binding) == |env.wakes|
    ensures ControlLost in tail ==>
              var k := Decisive(env.wakes, nonce, binding);
              && k < |env.wakes| && LosesControl(env.wakes[k], nonce)
              && end == CleanupFailure(env.cleanup, LossReason(env.wakes[k]))
  {
    var loopEnd, raised := WatchExecution(env.wakes, nonce, binding);
    tail := if raised then [CancellationRaised] else [];
    match loopEnd {
      case LoopCompleted(result) =>
        if ResultEvidence in env.fails && !result.CleanupUnproven? {
          end := Failed("scheduled runner result evidence failed");
        } else {
          tail := tail + [Sent(3, nonce, ExecutionMessage(result))];
          end := if WriteResult in env.fails then Failed("write failed") else Finished;
        }
      case LoopTaskFailed => end := Failed("scheduled runner execution task failed");
      case LoopControlLost(reason) =>
        tail := tail + [ControlLost, CancellationRaised];
        end := CleanupFailure(env.cleanup, reason);
      case LoopViolation(violation) => end := Failed(violation);
      case LoopClockFailed => end := Failed("clock failed");
      case LoopExhausted => end := StillRunning;
    }
  }

  /** The second frame: the preparation, or why it was refused. */
  function SecondMessage(env: Env, binding: Binding): Outbound {
    match env.prepareRefusal
    case Some(result) => PreparationError(result)
    case None => Prepared(binding, env.preparationNonce)
  }

  /** The Ready frame goes out for a valid request, once the runner was probed and attested. */
  ghost predicate SendsReady(env: Env) {
    RequestsReadiness(env) && env.fails !! {Setup, Probe, ReadyEvidence} && env.authorityEpoch >= 0
  }

  /** The second frame goes out for a valid Prepare, prepared and attested or refused. */
  ghost predicate SendsSecond(env: Env) {
    && Prepares(env) && AbleToGreet(env)
    && env.fails !! {PrepareClock, Grant, Permit, TaskDecoding, PrepareTask}
    && env.handshake[2].frame.message.binding.fenceToken <= I64_MAX
    && (env.prepareRefusal.Some? || PreparedEvidence !in env.fails)
  }

  ghost function ReadyFrame(env: Env): seq<Action> {
    if SendsReady(env) then [Sent(1, env.handshake[0].frame.nonce, Ready)] else []
  }

  ghost function SecondFrame(env: Env): seq<Action> {
    if SendsSecond(env) then
      var prepare := env.handshake[2].frame;
      [Sent(2, prepare.nonce, SecondMessage(env, prepare.message.binding))]
    else []
  }

  /** What the session sends before an execution can start. */
  ghost predicate Opening(env: Env, head: seq<Action>) {
    head == ReadyFrame(env) + SecondFrame(env)
  }

  /** The frames sent ahead of an execution, and its start. */
  ghost function Started(env: Env): seq<Action>
    requires Handshake(env)
  {
    var prepare := env.handshake[2].frame;
    [Sent(1, env.handshake[0].frame.nonce, Ready),
     Sent(2, prepare.nonce, SecondMessage(env, prepare.message.binding)),
     ExecutionStarted]
  }

  /** What a whole session does. */
  ghost predicate SessionTrace(env: Env, trace: seq<Action>) {
    if Handshake(env) && LocallyAble(env) then
      var prepare := env.handshake[2].frame;
      && Started(env) <= trace
      && ExecutionTrace(env, prepare.nonce, prepare.message.binding, trace[3..])
    else
      Opening(env, trace)
  }

  /** Up to the admission. */
  method Greet(env: Env) returns (sent: seq<Action>, reason: string, admitted: bool)
    ensures admitted <==> Admits(env) && AbleToGreet(env)
    ensures sent == ReadyFrame(env)
  {
    sent, admitted := [], false;
    if Setup in env.fails {
      return sent, "scheduled runner setup failed", false;
    }
    var readiness := ReadAt(env, 0);
    if !readiness.Got? || !readiness.frame.message.ReadinessRequest? {
      return sent, "scheduled runner expected readiness request", false;
    }
    if readiness.frame.sequence != 1 {
      return sent, "scheduled runner readiness sequence mismatch", false;
    }
    if !ReadyTtlValid(readiness.frame.message.readyUntil, env.readinessNow) {
      return sent, "scheduled runner readiness deadline invalid", false;
    }
    if Probe in env.fails || env.authorityEpoch < 0 || ReadyEvidence in env.fails {
      return sent, "scheduled runner readiness failed", false;
    }
    sent := [Sent(1, readiness.frame.nonce, Ready)];
    if WriteReady in env.fails || AdmissionClock in env.fails {
      return sent, "scheduled runner ready frame failed", false;
    }
    var admission := ReadAt(env, 1);
    if !admission.Got? || !admission.frame.message.Admission? {
      return sent, "scheduled runner expected admission", false;
    }
    if !AdmissionValid(env, admission.frame, readiness.frame.message.challenge) {
      return sent, "scheduled runner admission binding mismatch", false;
    }
    return sent, "", true;
  }

  /** From the admission to the second frame; a refused preparation ends the session. */
  method PrepareRun(env: Env) returns (sent: seq<Action>, reason: string, prepared: bool)
    requires Admits(env) && AbleToGreet(env)
    ensures prepared <==> Prepares(env) && AbleToPrepare(env)
    ensures sent == SecondFrame(env)
    ensures !prepared && sent != [] ==> env.prepareRefusal.Some?
  {
    sent, prepared := [], false;
    if PrepareClock in env.fails {
      return sent, "clock failed", false;
    }
    var prepare := ReadAt(env, 2);
    if !prepare.Got? || !prepare.frame.message.Prepare? {
      return sent, "scheduled runner expected prepare", false;
    }
    var nonce, binding := prepare.frame.nonce, prepare.frame.message.binding;
    if nonce != ReadAt(env, 1).frame.nonce || prepare.frame.sequence != 3 {
      return sent, "scheduled runner prepare sequence mismatch", false;
    }
    if !BindingValid(env, binding) {
      return sent, "scheduled runner binding profile mismatch", false;
    }
    if Grant in env.fails || binding.fenceToken > I64_MAX || Permit in env.fails
       || TaskDecoding in env.fails || PrepareTask in env.fails {
      return sent, "scheduled runner prepare task failed", false;
    }
    if env.prepareRefusal.Some? {
      sent := [Sent(2, nonce, PreparationError(env.prepareRefusal.value))];
      return sent, "", false;
    }
    if PreparedEvidence in env.fails {
      return sent, "scheduled runner prepared evidence failed", false;
    }
    sent := [Sent(2, nonce, Prepared(binding, env.preparationNonce))];
    return sent, "", true;
  }

  method AwaitStart(env: Env) returns (started: bool)
    requires Prepares(env)
    ensures started <==> Handshake(env) && env.fails !! {WritePrepared, StartClock}
  {
    if WritePrepared in env.fails || StartClock in env.fails {
      return false;
    }
    var start := ReadAt(env, 3);
    var prepare := ReadAt(env, 2).frame;
    started := start.Got? && start.frame.message.Start?
               && StartValid(start.frame, prepare.message.binding, env.preparationNonce,
                             prepare.nonce);
  }

  /**
  The whole session. An execution starts exactly when the four frames arrive in order with
  matching nonces, bindings and preparation nonce and no local step fails; what follows is the
  trace of that one execution.
  */
  method RunExecutorSession(env: Env) returns (trace: seq<Action>, end: End)
    ensures SessionTrace(env, trace)
    ensures end == Finished <==>
              if Handshake(env) && LocallyAble(env) then
                |trace| > 3 && trace[|trace| - 1].Sent? && WriteResult !in env.fails
              else
                SendsSecond(env) && env.prepareRefusal.Some? && WriteError !in env.fails
  {
    var greeting, reason, admitted := Greet(env);
    if !admitted {
      return greeting, Failed(reason);
    }
    var preparation, why, prepared := PrepareRun(env);
    trace := greeting + preparation;
    if !prepared {
      var refused := preparation != [] && WriteError !in env.fails;
      return trace, if refused then Finished else Failed(why);
    }
    var started := AwaitStart(env);
    if !started {
      return trace, Failed("scheduled runner start binding mismatch");
    }
    var prepare := ReadAt(env, 2).frame;
    var tail, executionEnd := Execute(env, prepare.nonce, prepare.message.binding);
    trace := trace + [ExecutionStarted] + tail;
    assert trace == Started(env) + tail;
    assert trace[3..] == tail;
    end := executionEnd;
  }

  // ---------------------------------------------------------------- phase safety

  /** The sequence numbers of the frames sent, in order. */
  function OutboundSequences(trace: seq<Action>): seq<nat> {
    if trace == [] then [] else SequenceOf(trace[0]) + OutboundSequences(trace[1..])
  }

  function SequenceOf(a: Action): seq<nat> {
    if a.Sent? then [a.sequence] else []
  }

  lemma {:induction false} OutboundOfConcat(a: seq<Action>, b: seq<Action>)
    ensures OutboundSequences(a + b) == OutboundSequences(a) + OutboundSequences(b)
  {
    if a == [] {
      assert a + b == b;
    } else {
      var whole, rest := a + b, a[1..];
      assert whole[0] == a[0] && whole[1..] == rest + b;
      OutboundOfConcat(rest, b);
      Regroup(SequenceOf(a[0]), OutboundSequences(rest), OutboundSequences(b));
    }
  }

  lemma Regroup(x: seq<nat>, y: seq<nat>, z: seq<nat>)
    ensures x + (y + z) == (x + y) + z
  {
  }

  lemma OutboundOfOpening(r: Action, p: Action)
    requires r.Sent? && p.Sent?
    ensures OutboundSequences([r]) == [r.sequence]
    ensures OutboundSequences([r, p]) == [r.sequence, p.sequence]
    ensures OutboundSequences([r, p, ExecutionStarted]) == [r.sequence, p.sequence]
  {
    assert OutboundSequences([p]) == [p.sequence] by { assert [p][1..] == []; }
    assert OutboundSequences([ExecutionStarted]) == [] by { assert [ExecutionStarted][1..] == []; }
    OutboundOfConcat([r], [p]);
    OutboundOfConcat([r, p], [ExecutionStarted]);
    assert [r] + [p] == [r, p] && [r, p] + [ExecutionStarted] == [r, p, ExecutionStarted];
  }

  /** The loop ended because the prepared execution finished and its cleanup was proven. */
  ghost predicate ProvenResult(env: Env, prepare: Frame) {
    && prepare.message.Prepare?
    && var k := Decisive(env.wakes, prepare.nonce, prepare.message.binding);
       && k < |env.wakes| && env.wakes[k].ExecutionDone? && env.wakes[k].result.Some?
       && !env.wakes[k].result.value.CleanupUnproven?
  }

  /** The sequence numbers of an execution's part of the trace. */
  lemma ExecutionSequences(env: Env, nonce: string, binding: Binding, tail: seq<Action>)
    requires ExecutionTrace(env, nonce, binding, tail)
    ensures var ending := Ending(env, nonce, binding);
            OutboundSequences(tail) == if ending != [] && ending[0].Sent? then [3] else []
  {
    var before, ending := PeerCancellation(env, nonce, binding), Ending(env, nonce, binding);
    OutboundOfConcat(before, ending);
    assert OutboundSequences(before) == [];
    if |ending| == 1 {
      assert ending[1..] == [];
    } else if |ending| == 2 {
      assert ending[1..] == [CancellationRaised];
      assert [CancellationRaised][1..] == [];
    }
  }

  /** What an execution's part of the trace can hold. */
  lemma ExecutionMembers(env: Env, nonce: string, binding: Binding, tail: seq<Action>, a: Action)
    requires ExecutionTrace(env, nonce, binding, tail) && a in tail
    ensures a == CancellationRaised || a in Ending(env, nonce, binding)
  {
  }

  lemma StartedOnce(head: seq<Action>, tail: seq<Action>)
    requires |head| == 3 && head[2] == ExecutionStarted && head[0].Sent? && head[1].Sent?
    requires ExecutionStarted !in tail
    ensures multiset(head + tail)[ExecutionStarted] == 1
  {
    assert head == [head[0], head[1], ExecutionStarted];
    assert multiset(head)[ExecutionStarted] == 1;
    assert multiset(tail)[ExecutionStarted] == 0;
  }

  lemma OpeningSafety(env: Env, head: seq<Action>)
    requires Opening(env, head)
    ensures ExecutionStarted !in head && ControlLost !in head
    ensures OutboundSequences(head) <= [1, 2, 3]
    ensures forall a | a in head :: a.Sent? && !a.message.Result?
  {
    var ready, second := ReadyFrame(env), SecondFrame(env);
    assert second != [] ==> ready != [];
    if ready != [] {
      OutboundOfOpening(ready[0], if second != [] then second[0] else ready[0]);
      assert second != [] ==> head == [ready[0], second[0]];
      assert second == [] ==> head == [ready[0]];
    }
  }

  lemma StartedSequences(env: Env, trace: seq<Action>)
    requires Handshake(env) && Started(env) <= trace
    requires var prepare := env.handshake[2].frame;
             ExecutionTrace(env, prepare.nonce, prepare.message.binding, trace[3..])
    ensures multiset(trace)[ExecutionStarted] == 1
    ensures OutboundSequences(trace) == [1, 2] + OutboundSequences(trace[3..])
  {
    var prepare := env.handshake[2].frame;
    var head, tail := Started(env), trace[3..];
    assert trace == head + tail;
    if ExecutionStarted in tail {
      ExecutionMembers(env, prepare.nonce, prepare.message.binding, tail, ExecutionStarted);
      assert false;
    }
    StartedOnce(head, tail);
    OutboundOfConcat(head, tail);
    OutboundOfOpening(head[0], head[1]);
  }

  /** A loss of control and a Result can only come from the end of the execution. */
  lemma StartedMembers(env: Env, trace: seq<Action>, a: Action)
    requires Handshake(env) && Started(env) <= trace
    requires var prepare := env.handshake[2].frame;
             ExecutionTrace(env, prepare.nonce, prepare.message.binding, trace[3..])
    requires a in trace && (a.ControlLost? || (a.Sent? && a.message.Result?))
    ensures var prepare := env.handshake[2].frame;
            a in Ending(env, prepare.nonce, prepare.message.binding)
  {
    var prepare := env.handshake[2].frame;
    var head, tail := Started(env), trace[3..];
    assert trace == head + tail;
    assert !head[1].message.Result?;
    assert a !in head;
    ExecutionMembers(env, prepare.nonce, prepare.message.binding, tail, a);
  }

  lemma ControlLossEnds(env: Env, nonce: string, binding: Binding)
    requires ControlLost in Ending(env, nonce, binding)
    ensures Ending(env, nonce, binding) == [ControlLost, CancellationRaised]
  {
  }

  lemma ControlLossEndsExecution(env: Env, nonce: string, binding: Binding, tail: seq<Action>)
    requires ExecutionTrace(env, nonce, binding, tail)
    requires Ending(env, nonce, binding) == [ControlLost, CancellationRaised]
    ensures |tail| >= 2 && tail[|tail| - 1] == CancellationRaised
  {
  }

  lemma StartedOutbound(env: Env, trace: seq<Action>)
    requires Handshake(env) && Started(env) <= trace
    requires var prepare := env.handshake[2].frame;
             ExecutionTrace(env, prepare.nonce, prepare.message.binding, trace[3..])
    ensures var prepare := env.handshake[2].frame;
            var ending := Ending(env, prepare.nonce, prepare.message.binding);
            OutboundSequences(trace) ==
            if ending != [] && ending[0].Sent? then [1, 2, 3] else [1, 2]
  {
    var prepare := env.handshake[2].frame;
    StartedSequences(env, trace);
    ExecutionSequences(env, prepare.nonce, prepare.message.binding, trace[3..]);
  }

  lemma ControlLossIsFinal(env: Env, trace: seq<Action>)
    requires Handshake(env) && Started(env) <= trace
    requires var prepare := env.handshake[2].frame;
             ExecutionTrace(env, prepare.nonce, prepare.message.binding, trace[3..])
    requires ControlLost in trace
    ensures trace[|trace| - 1] == CancellationRaised && OutboundSequences(trace) == [1, 2]
  {
    var prepare, tail := env.handshake[2].frame, trace[3..];
    StartedMembers(env, trace, ControlLost);
    ControlLossEnds(env, prepare.nonce, prepare.message.binding);
    ControlLossEndsExecution(env, prepare.nonce, prepare.message.binding, tail);
    assert tail[|tail| - 1] == trace[|trace| - 1];
    StartedOutbound(env, trace);
  }

  lemma ResultIsProven(env: Env, trace: seq<Action>, a: Action)
    requires Handshake(env) && Started(env) <= trace
    requires var prepare := env.handshake[2].frame;
             ExecutionTrace(env, prepare.nonce, prepare.message.binding, trace[3..])
    requires a in trace && a.Sent? && a.message.Result?
    ensures ControlLost !in trace && ProvenResult(env, env.handshake[2].frame)
  {
    StartedMembers(env, trace, a);
    if ControlLost in trace {
      StartedMembers(env, trace, ControlLost);
    }
  }

  /**
  For everything that can arrive, fail or time out: an execution starts at most once and only
  after the complete handshake, the frames sent are numbered by a prefix of 1, 2, 3, a loss of
  control raises cancellation and sends nothing more, and a Result is never sent for a cleanup
  that was not proven.
  */
  lemma PhaseSafety(env: Env, trace: seq<Action>)
    requires SessionTrace(env, trace)
    ensures ExecutionStarted in trace <==> Handshake(env) && LocallyAble(env)
    ensures multiset(trace)[ExecutionStarted] <= 1
    ensures OutboundSequences(trace) <= [1, 2, 3]
    ensures ControlLost in trace ==>
              trace[|trace| - 1] == CancellationRaised && OutboundSequences(trace) == [1, 2]
    ensures (exists a | a in trace :: a.Sent? && a.message.Result?) ==>
              && ControlLost !in trace && ExecutionStarted in trace
              && ProvenResult(env, env.handshake[2].frame)
  {
    if Handshake(env) && LocallyAble(env) {
      StartedSequences(env, trace);
      StartedOutbound(env, trace);
      if ControlLost in trace {
        ControlLossIsFinal(env, trace);
      }
      forall a | a in trace && a.Sent? && a.message.Result?
        ensures ControlLost !in trace && ProvenResult(env, env.handshake[2].frame)
      {
        ResultIsProven(env, trace, a);
      }
    } else {
      OpeningSafety(env, trace);
    }
  }

  /**
  During the execution cancellation is raised exactly for a Cancel of this run or a loss of
  control. A protocol violation or a failing clock ends the session without it.
  */
  lemma CancellationExactly(env: Env, nonce: string, binding: Binding, tail: seq<Action>)
    requires ExecutionTrace(env, nonce, binding, tail)
    ensures var k := Decisive(env.wakes, nonce, binding);
            CancellationRaised in tail <==>
              || CancelledBefore(env.wakes, nonce, binding, k)
              || (k < |env.wakes| && LosesControl(env.wakes[k], nonce))
  {
    var k := Decisive(env.wakes, nonce, binding);
    if k < |env.wakes| && LosesControl(env.wakes[k], nonce) {
      assert tail[|tail| - 1] == CancellationRaised;
    } else if CancelledBefore(env.wakes, nonce, binding, k) {
      assert tail[0] == CancellationRaised;
    }
  }

  /**
  Two concrete ends: a stray frame of the same session, and a clock that fails while the execution
  runs. The loop is over, nothing was sent and the execution was not cancelled.
  */
  lemma ViolationLeavesExecutionRunning(env: Env, nonce: string, binding: Binding,
                                        tail: seq<Action>)
    requires || env.wakes == [Incoming(Got(Frame(REMOTE_PROTOCOL_VERSION, nonce, 5, OtherMessage)))]
             || env.wakes == [ClockFailed]
    requires ExecutionTrace(env, nonce, binding, tail)
    ensures Decisive(env.wakes, nonce, binding) < |env.wakes|
    ensures tail == []
  {
    assert Decisive(env.wakes, nonce, binding) == 0;
  }
}
