/**
What an executor session sends and when it starts an execution, spelled out: which inbound frames,
field by field, lead to an execution, and which outcome is reported in which words.
*/
module ExecutorFrames {
  import opened MachineInts
  import opened ExecutorSession

  // ---------------------------------------------------------------- when an execution starts

  predicate Arrived(env: Env, i: nat) {
    i < |env.handshake| && env.handshake[i].Got?
  }

  /** A readiness request that leaves the runner between one millisecond and thirty seconds. */
  predicate AsksInTime(env: Env) {
    && Arrived(env, 0)
    && var f := env.handshake[0].frame;
       && f.message.ReadinessRequest? && f.sequence == 1
       && env.readinessNow < f.message.readyUntil <= env.readinessNow + 30_000
  }

  /** An admission of protocol version 2 for this challenge and deployment, not yet expired. */
  predicate IsAdmitted(env: Env) {
    && AsksInTime(env) && Arrived(env, 1)
    && var f := env.handshake[1].frame;
       && f.message.Admission? && f.sequence == 2 && f.version == 2
       && f.message.challenge == env.handshake[0].frame.message.challenge
       && f.message.expiresAt > env.admissionNow
       && f.message.deploymentEpoch == env.authorityEpoch
       && f.message.profileDigest == env.authorityProfile
  }

  /** A preparation in the admitted session, for this deployment and credential. */
  predicate IsPrepared(env: Env) {
    && IsAdmitted(env) && Arrived(env, 2)
    && var f := env.handshake[2].frame;
       && f.message.Prepare? && f.sequence == 3 && f.nonce == env.handshake[1].frame.nonce
       && f.message.binding.deploymentEpoch == env.authorityEpoch
       && f.message.binding.profileDigest == env.authorityProfile
       && f.message.binding.credentialRevision == env.credentialRevision
  }

  /** A start in the same session, for what was prepared. */
  predicate IsStarted(env: Env) {
    && IsPrepared(env) && Arrived(env, 3)
    && var f := env.handshake[3].frame;
       && f.message.Start? && f.sequence == 4 && f.nonce == env.handshake[1].frame.nonce
       && f.message.binding == env.handshake[2].frame.message.binding
       && f.message.preparationNonce == env.preparationNonce
  }

  /** Every local step on the way succeeds. */
  predicate NothingFails(env: Env) {
    && env.fails !! {Setup, Probe, ReadyEvidence, WriteReady, AdmissionClock, PrepareClock, Grant,
                     Permit, TaskDecoding, PrepareTask, PreparedEvidence, WritePrepared, StartClock}
    && env.authorityEpoch >= 0 && env.prepareRefusal.None?
    && (Arrived(env, 2) && env.handshake[2].frame.message.Prepare? ==>
          env.handshake[2].frame.message.binding.fenceToken <= I64_MAX)
  }

  lemma HandshakeSpelledOut(env: Env)
    ensures RequestsReadiness(env) <==> AsksInTime(env)
    ensures Admits(env) <==> IsAdmitted(env)
    ensures Prepares(env) <==> IsPrepared(env)
    ensures Handshake(env) <==> IsStarted(env)
  {
  }

  lemma AbilitySpelledOut(env: Env)
    requires IsStarted(env)
    ensures LocallyAble(env) <==> NothingFails(env)
  {
  }

  /** An execution starts exactly when the four frames arrive as spelled out and nothing fails. */
  lemma StartsExactly(env: Env, trace: seq<Action>)
    requires SessionTrace(env, trace)
    ensures ExecutionStarted in trace <==> IsStarted(env) && NothingFails(env)
  {
    PhaseSafety(env, trace);
    HandshakeSpelledOut(env);
    if IsStarted(env) {
      AbilitySpelledOut(env);
    }
  }

  // ---------------------------------------------------------------- the second frame

  /** The Ready frame goes out for a request in time, once the runner was probed and attested. */
  lemma FirstFrameExactly(env: Env, trace: seq<Action>)
    requires SessionTrace(env, trace)
    ensures trace != [] <==>
              && AsksInTime(env) && env.authorityEpoch >= 0
              && env.fails !! {Setup, Probe, ReadyEvidence}
    ensures trace != [] ==> trace[0] == Sent(1, env.handshake[0].frame.nonce, Ready)
  {
    HandshakeSpelledOut(env);
  }

  /** A second frame goes out for a valid preparation, attested or refused. */
  predicate IsAnswered(env: Env) {
    && IsPrepared(env) && env.authorityEpoch >= 0
    && env.handshake[2].frame.message.binding.fenceToken <= I64_MAX
    && env.fails !! {Setup, Probe, ReadyEvidence, WriteReady, AdmissionClock,
                     PrepareClock, Grant, Permit, TaskDecoding, PrepareTask}
    && (PreparedEvidence in env.fails ==> env.prepareRefusal.Some?)
  }

  /** What it says, word by word. */
  predicate AnswersPrepare(env: Env, message: Outbound)
    requires IsAnswered(env)
  {
    match env.prepareRefusal
    case None => message == Prepared(env.handshake[2].frame.message.binding, env.preparationNonce)
    case Some(PreflightRejected) => message == Error("runner-preflight-rejected", false)
    case Some(ExecutionFailed) => message == Error("runner-preflight-rejected", false)
    case Some(TransportLost) => message == Error("runner-transport-lost", true)
    case Some(CleanupUnproven) => message == Error("runner-cleanup-unproven", true)
    case Some(Interrupted) => message == Error("runner-preflight-interrupted", true)
    case Some(Completed) => message == Error("runner-protocol-rejected", false)
  }

  lemma SecondFrameExactly(env: Env, trace: seq<Action>)
    requires SessionTrace(env, trace)
    ensures |trace| >= 2 <==> IsAnswered(env)
    ensures IsAnswered(env) ==>
              && trace[1].Sent? && trace[1].sequence == 2
              && trace[1].nonce == env.handshake[1].frame.nonce
              && AnswersPrepare(env, trace[1].message)
  {
    HandshakeSpelledOut(env);
    if IsStarted(env) {
      AbilitySpelledOut(env);
    }
    assert SendsSecond(env) <==> IsAnswered(env);
  }

  // ---------------------------------------------------------------- the third frame

  /** The wake-up that ended the execution's loop, if any. */
  ghost function DecidingWake(env: Env): Option<Wake>
    requires IsStarted(env)
  {
    var prepare := env.handshake[2].frame;
    var k := Decisive(env.wakes, prepare.nonce, prepare.message.binding);
    if k < |env.wakes| then Some(env.wakes[k]) else None
  }

  /** A third frame reports how the execution ended, and nothing else. */
  lemma ThirdFrameExactly(env: Env, trace: seq<Action>, a: Action)
    requires SessionTrace(env, trace) && a in trace && a.Sent? && a.sequence == 3
    ensures IsStarted(env) && a.nonce == env.handshake[1].frame.nonce
    ensures DecidingWake(env).Some? && DecidingWake(env).value.ExecutionDone?
            && DecidingWake(env).value.result.Some?
    ensures var result := DecidingWake(env).value.result.value;
            && (a.message == Result(OutcomeUnknownKind) <==> result == TransportLost)
            && (a.message == Error("runner-cleanup-unproven", true) <==> result == CleanupUnproven)
            && (a.message == Result(CompletedKind) <==>
                  || result == Completed || result == Interrupted
                  || result == ExecutionFailed || result == PreflightRejected)
  {
    HandshakeSpelledOut(env);
    assert forall b | b in ReadyFrame(env) + SecondFrame(env) :: b.sequence != 3;
    if Handshake(env) && LocallyAble(env) {
      var prepare := env.handshake[2].frame;
      assert trace == Started(env) + trace[3..];
      assert a !in Started(env);
      ExecutionMembers(env, prepare.nonce, prepare.message.binding, trace[3..], a);
    }
  }

  /** And it is sent for every result that can be attested; an unproven cleanup needs no proof. */
  lemma ThirdFrameIsSent(env: Env, trace: seq<Action>)
    requires SessionTrace(env, trace) && IsStarted(env) && NothingFails(env)
    requires DecidingWake(env).Some? && DecidingWake(env).value.ExecutionDone?
    requires DecidingWake(env).value.result.Some?
    requires ResultEvidence !in env.fails || DecidingWake(env).value.result.value.CleanupUnproven?
    ensures exists a | a in trace :: a.Sent? && a.sequence == 3
  {
    HandshakeSpelledOut(env);
    AbilitySpelledOut(env);
    var prepare := env.handshake[2].frame;
    var before := PeerCancellation(env, prepare.nonce, prepare.message.binding);
    assert trace[3..][|before|] == Ending(env, prepare.nonce, prepare.message.binding)[0];
    assert trace[3 + |before|].Sent? && trace[3 + |before|].sequence == 3;
  }

  // ---------------------------------------------------------------- after a loss of control

  /**
  A session that lost its peer reports that loss only once the execution is known to be cleaned
  up; otherwise it reports what kept it from knowing.
  */
  lemma LossReportsAreExact(wait: CleanupWait, w: Wake, nonce: string)
    requires LosesControl(w, nonce)
    ensures match wait
            case GraceElapsed => CleanupFailure(wait, LossReason(w)) ==
              Failed("scheduled runner cleanup did not converge after control loss")
            case TaskFailed => CleanupFailure(wait, LossReason(w)) ==
              Failed("scheduled runner execution task failed after control loss")
            case Cleaned(CleanupUnproven) => CleanupFailure(wait, LossReason(w)) ==
              Failed("scheduled runner cleanup was not proven after control loss")
            case Cleaned(_) => CleanupFailure(wait, LossReason(w)) == Failed(
              if w.read.Closed? then "scheduled runner control disconnected during execution"
              else "scheduled runner control transport failed")
  {
  }
}
