/** What every history of the delivery worker obeys, whatever the interleaving. */
module DeliverySafety {
  import opened MachineInts
  import opened SchedulerPolicy
  import opened DeliveryState
  import opened DeliveryWorker

  // ---------------------------------------------------------------- lawful histories

  /** What a history says about the newest claim. */
  datatype Monitor = Monitor(
    probe: Option<(Authority, Readiness)>,
    open: Option<Claim>,
    claims: nat,
    claimedAt: I64,
    sent: bool,
    answer: Option<ProviderOutcome>,
    joined: bool,
    lost: bool,
    completed: bool,
    expiry: Option<int>,
    renewed: bool
  )

  const NOTHING_SEEN: Monitor :=
    Monitor(None, None, 0, 0, false, None, false, false, false, None, false)

  function Observe(m: Monitor, e: Effect): Monitor {
    match e
    case Probed(a, verdict) => m.(probe := Some((a, verdict)))
    case Deferring(_, _, _) => m
    case Claimed(c, at) =>
      NOTHING_SEEN.(open := Some(c), claims := m.claims + 1, claimedAt := at)
    case LeaseRenewed(_, expiresAt, final) =>
      m.(expiry := Some(expiresAt), renewed := m.renewed || final)
    case LeaseAnswered(answer) => m.(lost := m.lost || answer == Refused(LostAuthority))
    case SendStarted(_) => m.(sent := true)
    case SendAnswered(outcome) => m.(answer := Some(outcome))
    case HeartbeatJoined => m.(joined := true)
    case Completed(_, _) => m.(completed := true)
    case ClaimClosed => m.(open := None)
  }

  function Watch(h: History): Monitor {
    match h
    case Empty => NOTHING_SEEN
    case Then(past, e) => Observe(Watch(past), e)
  }

  /** The outcome reported is the provider's own, or stands for a send that never answered. */
  predicate Justified(m: Monitor, outcome: ProviderOutcome) {
    && m.sent
    && (m.answer == Some(outcome) || (m.answer.None? && Unanswered(outcome)))
  }

  /** What a send that never answered is reported as. */
  predicate Unanswered(outcome: ProviderOutcome) {
    || outcome == AmbiguousPostWrite("cancelled_after_dispatch")
    || outcome == AmbiguousPostWrite("provider_timeout")
  }

  predicate Untouched(m: Monitor) {
    !m.sent && m.answer.None?
  }

  /** What must have happened to the claim for a decision about it to be truthful. */
  predicate Truthful(m: Monitor, decision: Decision) {
    match decision
    case Release => Untouched(m)
    case DeadlineExceeded => Untouched(m)
    case Report(outcome) => m.renewed && Justified(m, outcome)
  }

  /** What may follow a history with the given summary. */
  predicate Allowed(m: Monitor, e: Effect) {
    match e
    case Probed(_, _) => m.open.None?
    case Deferring(_, _, _) => m.open.None?
    case Claimed(c, _) =>
      m.open.None? && c.id == m.claims && m.probe == Some((c.authority, Ready))
    case LeaseRenewed(at, expiresAt, final) =>
      && m.open.Some? && !m.completed && !m.renewed
      && (final <==> m.joined)
      && expiresAt == at + m.open.value.policy.deliveryLeaseSeconds + (if final then 1 else 0)
      && (m.expiry.Some? ==>
            if final then m.expiry.value < expiresAt else m.expiry.value <= expiresAt)
    case LeaseAnswered(_) => m.open.Some? && !m.completed
    case SendStarted(decidedAt) =>
      && m.open.Some? && !m.sent && !m.joined && !m.completed
      && !PastDeadline(m.open.value, decidedAt)
    case SendAnswered(_) => m.open.Some? && m.sent && m.answer.None? && !m.joined && !m.completed
    case HeartbeatJoined => m.open.Some? && !m.joined && !m.lost && !m.completed
    case Completed(decision, now) =>
      && m.open.Some? && m.joined && !m.lost && !m.completed
      && (if decision.DeadlineExceeded? then PastDeadline(m.open.value, now)
          else m.claimedAt <= now)
      && Truthful(m, decision)
    case ClaimClosed => m.open.Some?
  }

  predicate Lawful(h: History) {
    match h
    case Empty => true
    case Then(past, e) => Lawful(past) && Allowed(Watch(past), e)
  }

  function ObserveAll(m: Monitor, es: Effects): Monitor {
    match es
    case Nothing => m
    case One(e) => Observe(m, e)
    case Two(e, f) => Observe(Observe(m, e), f)
  }

  predicate AllowedAll(m: Monitor, es: Effects) {
    match es
    case Nothing => true
    case One(e) => Allowed(m, e)
    case Two(e, f) => Allowed(m, e) && Allowed(Observe(m, e), f)
  }

  // ---------------------------------------------------------------- the inductive invariant

  predicate Running(m: Monitor) {
    !m.joined && !m.completed && !m.renewed
  }

  predicate Quiet(m: Monitor) {
    m.joined && !m.lost && !m.completed
  }

  /** What each point of a dispatch knows about its claim. */
  predicate DispatchInvariant(pc: Pc, c: Claim, m: Monitor) {
    match pc
    case DispatchGate => Running(m) && Untouched(m)
    case DeadlineGate => Running(m) && Untouched(m)
    case CancelPoll(at) => Running(m) && m.answer.None? && !PastDeadline(c, at)
    case HeartbeatPoll(at) => Running(m) && m.answer.None? && !PastDeadline(c, at)
    case SendPoll(at) => Running(m) && m.answer.None? && !PastDeadline(c, at)
    case TimerPoll(at) => Running(m) && m.answer.None? && !PastDeadline(c, at) && m.sent
    case Joining(ThenRelease) => Running(m) && Untouched(m)
    case Joining(ThenDeadlineFailure(at)) => Running(m) && Untouched(m) && PastDeadline(c, at)
    case Joining(ThenFinalize(outcome)) => Running(m) && Justified(m, outcome)
    case Joining(ThenUnwind) => Running(m)
    case Releasing => Quiet(m) && Untouched(m)
    case DeadlineFailing(at) => Quiet(m) && Untouched(m) && PastDeadline(c, at)
    case Finalizing(outcome) => Quiet(m) && !m.renewed && Justified(m, outcome)
    case FinalRenewing(outcome) => Quiet(m) && m.renewed && Justified(m, outcome)
    case Completing(outcome) => Quiet(m) && m.renewed && Justified(m, outcome)
    case Committing(_, _, _) => m.completed && m.joined
    case _ => false
  }

  predicate OutsideClaim(pc: Pc) {
    || pc.LoopTop? || pc.TickTop? || pc.Reclaiming? || pc.PrepareGate? || pc.PreparePoll?
    || pc.Peeking? || pc.SkipGate? || pc.Skipping? || pc.ProbeGate? || pc.ProbePoll?
    || pc.Rejecting? || pc.ClaimGate? || pc.Claiming? || pc.Pausing? || pc.Halted?
  }

  /** A claim is only sought on the authority whose probe answered Ready. */
  predicate IdleInvariant(pc: Pc, last: I64, m: Monitor) {
    && OutsideClaim(pc)
    && (pc.ClaimGate? || pc.Claiming? ==> m.probe == Some((pc.ready, Ready)))
    && (pc.Claiming? ==> pc.claimAt <= last)
  }

  /** The heartbeat task and what it has reported. */
  predicate HeartbeatInvariant(s: State, m: Monitor)
    requires s.claim.Some?
  {
    && !s.heartbeat.Absent?
    && m.claimedAt <= s.last
    && (s.heartbeat.Joined? <==> m.joined)
    && (m.lost ==> s.heartbeat == Finished(Died(LostAuthority)))
    && (m.expiry.Some? && !m.renewed ==>
          m.expiry.value <= s.last + s.claim.value.policy.deliveryLeaseSeconds)
  }

  /** The summary of the history agrees with what the worker holds. */
  predicate Consistent(s: State, m: Monitor) {
    && m.open == s.claim
    && m.claims == s.claims
    && (s.claim.Some? ==> m.sent == s.sendPolled)
  }

  predicate Invariant(s: State, m: Monitor) {
    && Consistent(s, m)
    && (if s.claim.None? then s.heartbeat.Absent? && IdleInvariant(s.pc, s.last, m)
        else DispatchInvariant(s.pc, s.claim.value, m) && HeartbeatInvariant(s, m))
  }

  /** A step from a state with this summary is allowed and leads to the invariant again. */
  predicate Keeps(m: Monitor, next: State) {
    AllowedAll(m, next.emitted) && Invariant(next, ObserveAll(m, next.emitted))
  }

  // ---------------------------------------------------------------- every step keeps it

  /** A tick can end at any point: the claim is closed and forgotten. */
  lemma EndTickKeeps(s: State, m: Monitor, result: TickResult)
    requires Consistent(s, m) && s.emitted.Nothing?
    ensures Keeps(m, EndTick(s, result))
  {
  }

  /** Standing still keeps everything. */
  lemma PauseKeeps(s: State, m: Monitor)
    requires Invariant(s, m) && s.emitted.Nothing?
    ensures Keeps(m, s)
  {
  }

  lemma IdleStepKeeps(s: State, m: Monitor, i: Input)
    requires Invariant(s, m) && s.emitted.Nothing? && s.claim.None?
    ensures Keeps(m, IdleStep(s, i))
  {
  }

  lemma DeferKeeps(s: State, m: Monitor, a: Authority, policy: Policy, hint: Option<U64>)
    requires Invariant(s, m) && s.emitted.Nothing? && s.claim.None?
    ensures Keeps(m, Defer(s, a, policy, hint))
  {
  }

  lemma ProbePollKeeps(s: State, m: Monitor, i: Input)
    requires Invariant(s, m) && s.emitted.Nothing? && s.claim.None? && s.pc.ProbePoll?
    ensures Keeps(m, ProbePollStep(s, i))
  {
    if i.VerdictAnswer? && i.verdict.Deferred? {
      DeferKeeps(s, m, s.pc.probe, s.pc.policy, i.verdict.retryAfter);
    } else if i.Elapsed? {
      DeferKeeps(s, m, s.pc.probe, s.pc.policy, None);
    }
  }

  lemma ClaimStepKeeps(s: State, m: Monitor, i: Input)
    requires Invariant(s, m) && s.emitted.Nothing? && s.claim.None?
    ensures Keeps(m, ClaimStep(s, i))
  {
  }

  lemma ProbeStepKeeps(s: State, m: Monitor, i: Input)
    requires Invariant(s, m) && s.emitted.Nothing? && s.claim.None?
    ensures Keeps(m, ProbeStep(s, i))
  {
    if s.pc.ProbePoll? { ProbePollKeeps(s, m, i); } else { ClaimStepKeeps(s, m, i); }
  }

  lemma GateStepKeeps(s: State, m: Monitor, i: Input)
    requires Invariant(s, m) && s.emitted.Nothing? && s.claim.Some?
    requires s.pc.DispatchGate? || s.pc.DeadlineGate?
    ensures Keeps(m, GateStep(s, i))
  {
  }

  lemma CancelPollKeeps(s: State, m: Monitor, i: Input)
    requires Invariant(s, m) && s.emitted.Nothing? && s.claim.Some? && s.pc.CancelPoll?
    ensures Keeps(m, SelectStep(s, i))
  {
  }

  /** Polling the heartbeat ends the tick, goes on to the send, or does nothing. */
  lemma HeartbeatPollShape(s: State, i: Input, good: State -> bool)
    requires s.emitted.Nothing? && s.claim.Some? && s.pc.HeartbeatPoll?
    requires good(s) && (forall result :: good(EndTick(s, result)))
    requires good(s.(pc := SendPoll(s.pc.decidedAt)))
    ensures good(SelectStep(s, i))
  {
  }

  lemma HeartbeatQuietKeeps(s: State, m: Monitor)
    requires Invariant(s, m) && s.emitted.Nothing? && s.claim.Some? && s.pc.HeartbeatPoll?
    ensures Keeps(m, s.(pc := SendPoll(s.pc.decidedAt)))
  {
  }

  lemma HeartbeatPollKeeps(s: State, m: Monitor, i: Input)
    requires Invariant(s, m) && s.emitted.Nothing? && s.claim.Some? && s.pc.HeartbeatPoll?
    ensures Keeps(m, SelectStep(s, i))
  {
    var good := (next: State) => Keeps(m, next);
    forall result ensures good(EndTick(s, result)) {
      EndTickKeeps(s, m, result);
    }
    PauseKeeps(s, m);
    HeartbeatQuietKeeps(s, m);
    HeartbeatPollShape(s, i, good);
  }

  lemma TimerPollKeeps(s: State, m: Monitor, i: Input)
    requires Invariant(s, m) && s.emitted.Nothing? && s.claim.Some? && s.pc.TimerPoll?
    ensures Keeps(m, SelectStep(s, i))
  {
  }

  lemma SendPendingKeeps(s: State, m: Monitor)
    requires Invariant(s, m) && s.emitted.Nothing? && s.claim.Some? && s.pc.SendPoll?
    ensures Keeps(m, SendPollStep(s, NotReady))
  {
  }

  lemma SendPanickedKeeps(s: State, m: Monitor)
    requires Invariant(s, m) && s.emitted.Nothing? && s.claim.Some? && s.pc.SendPoll?
    ensures Keeps(m, SendPollStep(s, SendPanicked))
  {
  }

  lemma SendAnsweredKeeps(s: State, m: Monitor, outcome: ProviderOutcome)
    requires Invariant(s, m) && s.emitted.Nothing? && s.claim.Some? && s.pc.SendPoll?
    ensures Keeps(m, SendPollStep(s, SendOutcome(outcome)))
  {
  }

  lemma SendPollStepKeeps(s: State, m: Monitor, i: Input)
    requires Invariant(s, m) && s.emitted.Nothing? && s.claim.Some? && s.pc.SendPoll?
    ensures Keeps(m, SendPollStep(s, i))
  {
    match i
    case SendOutcome(outcome) => SendAnsweredKeeps(s, m, outcome);
    case NotReady => SendPendingKeeps(s, m);
    case SendPanicked => SendPanickedKeeps(s, m);
    case _ =>
  }

  lemma SelectStepKeeps(s: State, m: Monitor, i: Input)
    requires Invariant(s, m) && s.emitted.Nothing? && s.claim.Some?
    requires s.pc.CancelPoll? || s.pc.HeartbeatPoll? || s.pc.TimerPoll?
    ensures Keeps(m, SelectStep(s, i))
  {
    if s.pc.CancelPoll? {
      CancelPollKeeps(s, m, i);
    } else if s.pc.HeartbeatPoll? {
      HeartbeatPollKeeps(s, m, i);
    } else {
      TimerPollKeeps(s, m, i);
    }
  }

  lemma SendPhaseKeeps(s: State, m: Monitor, i: Input)
    requires Invariant(s, m) && s.emitted.Nothing? && s.claim.Some? && InSendPhase(s.pc)
    ensures Keeps(m, SendPhase(s, i))
  {
    if s.pc.SendPoll? {
      SendPollStepKeeps(s, m, i);
    } else if s.pc.DispatchGate? || s.pc.DeadlineGate? {
      GateStepKeeps(s, m, i);
    } else {
      SelectStepKeeps(s, m, i);
    }
  }

  lemma JoinFailedShape(s: State, next: AfterJoin, end: HeartbeatEnd, good: State -> bool)
    requires s.emitted.Nothing? && (forall result :: good(EndTick(s, result)))
    ensures good(JoinFailed(s, next, end))
  {
  }

  lemma JoinFailedKeeps(s: State, m: Monitor, next: AfterJoin, end: HeartbeatEnd)
    requires Consistent(s, m) && s.emitted.Nothing?
    ensures Keeps(m, JoinFailed(s, next, end))
  {
    var good := (n: State) => Keeps(m, n);
    forall result ensures good(EndTick(s, result)) {
      EndTickKeeps(s, m, result);
    }
    JoinFailedShape(s, next, end, good);
  }

  lemma JoinedUnwindKeeps(s: State, m: Monitor, i: Input)
    requires Invariant(s, m) && s.emitted.Nothing? && s.claim.Some? && s.pc == Joining(ThenUnwind)
    requires s.heartbeat == Finished(Stopped)
    ensures Keeps(m, JoinStep(s, i))
  {
  }

  lemma JoinedKeeps(s: State, m: Monitor, i: Input)
    requires Invariant(s, m) && s.emitted.Nothing? && s.claim.Some?
    requires s.pc.Joining? && !s.pc.next.ThenUnwind?
    requires s.heartbeat == Finished(Stopped)
    ensures Keeps(m, JoinStep(s, i))
  {
  }

  lemma JoinStepKeeps(s: State, m: Monitor, i: Input)
    requires Invariant(s, m) && s.emitted.Nothing? && s.claim.Some? && s.pc.Joining?
    ensures Keeps(m, JoinStep(s, i))
  {
    if s.heartbeat == Finished(Stopped) {
      if s.pc.next.ThenUnwind? { JoinedUnwindKeeps(s, m, i); } else { JoinedKeeps(s, m, i); }
    } else if s.heartbeat.Finished? && i.Proceed? {
      JoinFailedKeeps(s, m, s.pc.next, s.heartbeat.end);
    } else if i.JoinAborted? {
      JoinFailedKeeps(s, m, s.pc.next, i.end);
    }
  }

  lemma FinalizingKeeps(s: State, m: Monitor, i: Input)
    requires Invariant(s, m) && s.emitted.Nothing? && s.claim.Some? && s.pc.Finalizing?
    ensures Keeps(m, RenewStep(s, i))
  {
  }

  lemma FinalRenewingKeeps(s: State, m: Monitor, i: Input)
    requires Invariant(s, m) && s.emitted.Nothing? && s.claim.Some? && s.pc.FinalRenewing?
    ensures Keeps(m, RenewStep(s, i))
  {
  }

  lemma UnsentStepKeeps(s: State, m: Monitor, i: Input)
    requires Invariant(s, m) && s.emitted.Nothing? && s.claim.Some?
    requires s.pc.Releasing? || s.pc.DeadlineFailing?
    ensures Keeps(m, CompleteStep(s, i))
  {
  }

  lemma CompletingKeeps(s: State, m: Monitor, i: Input)
    requires Invariant(s, m) && s.emitted.Nothing? && s.claim.Some? && s.pc.Completing?
    ensures Keeps(m, CompleteStep(s, i))
  {
  }

  lemma CommitShape(s: State, i: Input, good: State -> bool)
    requires s.emitted.Nothing? && s.claim.Some? && s.pc.Committing?
    requires good(s) && (forall result :: good(EndTick(s, result)))
    ensures good(CommitStep(s, i))
  {
  }

  lemma CommitStepKeeps(s: State, m: Monitor, i: Input)
    requires Invariant(s, m) && s.emitted.Nothing? && s.claim.Some? && s.pc.Committing?
    ensures Keeps(m, CommitStep(s, i))
  {
    var good := (next: State) => Keeps(m, next);
    forall result ensures good(EndTick(s, result)) {
      EndTickKeeps(s, m, result);
    }
    PauseKeeps(s, m);
    CommitShape(s, i, good);
  }

  lemma RenewStepKeeps(s: State, m: Monitor, i: Input)
    requires Invariant(s, m) && s.emitted.Nothing? && s.claim.Some?
    requires s.pc.Finalizing? || s.pc.FinalRenewing?
    ensures Keeps(m, RenewStep(s, i))
  {
    if s.pc.Finalizing? { FinalizingKeeps(s, m, i); } else { FinalRenewingKeeps(s, m, i); }
  }

  lemma CompleteStepKeeps(s: State, m: Monitor, i: Input)
    requires Invariant(s, m) && s.emitted.Nothing? && s.claim.Some?
    requires s.pc.Releasing? || s.pc.DeadlineFailing? || s.pc.Completing?
    ensures Keeps(m, CompleteStep(s, i))
  {
    if s.pc.Completing? { CompletingKeeps(s, m, i); } else { UnsentStepKeeps(s, m, i); }
  }

  lemma CompletionPhaseKeeps(s: State, m: Monitor, i: Input)
    requires Invariant(s, m) && s.emitted.Nothing? && s.claim.Some?
    requires !s.pc.Joining? && !InSendPhase(s.pc)
    ensures Keeps(m, CompletionPhase(s, i))
  {
    if s.pc.Finalizing? || s.pc.FinalRenewing? {
      RenewStepKeeps(s, m, i);
    } else if s.pc.Committing? {
      CommitStepKeeps(s, m, i);
    } else {
      CompleteStepKeeps(s, m, i);
    }
  }

  lemma WorkerStepKeeps(s: State, m: Monitor, i: Input)
    requires Invariant(s, m) && s.emitted.Nothing?
    ensures Keeps(m, WorkerStep(s, i))
  {
    if s.claim.None? {
      if InProbePhase(s.pc) { ProbeStepKeeps(s, m, i); } else { IdleStepKeeps(s, m, i); }
    } else if s.pc.Joining? {
      JoinStepKeeps(s, m, i);
    } else if InSendPhase(s.pc) {
      SendPhaseKeeps(s, m, i);
    } else {
      CompletionPhaseKeeps(s, m, i);
    }
  }

  lemma BeatRenewsKeeps(s: State, m: Monitor, clock: I64)
    requires Invariant(s, m) && s.emitted.Nothing? && s.heartbeat == Sleeping(false)
    ensures Keeps(m, BeatStep(s, IntervalElapsed(clock)))
  {
  }

  lemma BeatStopsKeeps(s: State, m: Monitor, b: HeartbeatInput)
    requires Invariant(s, m) && s.emitted.Nothing? && s.heartbeat.Sleeping?
    requires s.heartbeat.stopRequested || !b.IntervalElapsed?
    ensures Keeps(m, BeatStep(s, b))
  {
  }

  lemma SleepingBeatKeeps(s: State, m: Monitor, b: HeartbeatInput)
    requires Invariant(s, m) && s.emitted.Nothing? && s.heartbeat.Sleeping?
    ensures Keeps(m, BeatStep(s, b))
  {
    if b.IntervalElapsed? && !s.heartbeat.stopRequested {
      BeatRenewsKeeps(s, m, b.clock);
    } else {
      BeatStopsKeeps(s, m, b);
    }
  }

  lemma RenewingBeatKeeps(s: State, m: Monitor, b: HeartbeatInput)
    requires Invariant(s, m) && s.emitted.Nothing? && s.heartbeat.Renewing?
    ensures Keeps(m, BeatStep(s, b))
  {
  }

  lemma BeatStepKeeps(s: State, m: Monitor, b: HeartbeatInput)
    requires Invariant(s, m) && s.emitted.Nothing?
    ensures Keeps(m, BeatStep(s, b))
  {
    if s.heartbeat.Sleeping? {
      SleepingBeatKeeps(s, m, b);
    } else if s.heartbeat.Renewing? {
      RenewingBeatKeeps(s, m, b);
    }
  }

  lemma StepKeeps(s: State, m: Monitor, e: Event)
    requires Invariant(s, m)
    ensures Keeps(m, Step(s, e))
  {
    var started := s.(emitted := Nothing);
    match e
    case RequestShutdown =>
    case ClockRead(_) =>
    case Worker(i) => WorkerStepKeeps(started, m, i);
    case Beat(b) => BeatStepKeeps(started, m, b);
  }

  lemma {:induction false} RunKeeps(events: seq<Event>)
    ensures var (s, h) := Run(events); Lawful(h) && Invariant(s, Watch(h))
  {
    if events != [] {
      RunKeeps(events[..|events| - 1]);
      var (s, h) := Run(events[..|events| - 1]);
      StepKeeps(s, Watch(h), events[|events| - 1]);
    }
  }

  // ---------------------------------------------------------------- what the laws say

  /** The effect happened right after the given past. */
  predicate Occurs(h: History, past: History, e: Effect) {
    match h
    case Empty => false
    case Then(p, f) => (p == past && f == e) || Occurs(p, past, e)
  }

  lemma {:induction false} OccurrencesAreAllowed(h: History, past: History, e: Effect)
    requires Lawful(h) && Occurs(h, past, e)
    ensures Lawful(past) && Allowed(Watch(past), e)
  {
    if h.past != past || h.effect != e {
      OccurrencesAreAllowed(h.past, past, e);
    }
  }

  /** The claim a history ends in, if its worker still holds one. */
  function OpenClaim(h: History): Option<Claim> {
    match h
    case Empty => None
    case Then(_, Claimed(c, _)) => Some(c)
    case Then(_, ClaimClosed) => None
    case Then(past, _) => OpenClaim(past)
  }

  /** The newest readiness verdict not yet used by a claim. */
  function UnusedProbe(h: History): Option<(Authority, Readiness)> {
    match h
    case Empty => None
    case Then(_, Probed(a, verdict)) => Some((a, verdict))
    case Then(_, Claimed(_, _)) => None
    case Then(past, _) => UnusedProbe(past)
  }

  /** The effect happened since the newest claim was made. */
  predicate SinceClaim(h: History, e: Effect) {
    match h
    case Empty => false
    case Then(past, f) => f == e || (!f.Claimed? && SinceClaim(past, e))
  }

  /** When the newest claim was made. */
  function ClaimTime(h: History): I64 {
    match h
    case Empty => 0
    case Then(_, Claimed(_, at)) => at
    case Then(past, _) => ClaimTime(past)
  }

  /** The newest lease expiry asked for since the newest claim. */
  function NewestExpiry(h: History): Option<int> {
    match h
    case Empty => None
    case Then(_, LeaseRenewed(_, expiresAt, _)) => Some(expiresAt)
    case Then(_, Claimed(_, _)) => None
    case Then(past, _) => NewestExpiry(past)
  }

  function ClaimCount(h: History): nat {
    match h
    case Empty => 0
    case Then(past, Claimed(_, _)) => ClaimCount(past) + 1
    case Then(past, _) => ClaimCount(past)
  }

  lemma {:induction false} WatchCounts(h: History)
    ensures Watch(h).open == OpenClaim(h) && Watch(h).probe == UnusedProbe(h)
    ensures Watch(h).claims == ClaimCount(h) && Watch(h).claimedAt == ClaimTime(h)
    ensures Watch(h).expiry == NewestExpiry(h)
  {
    match h
    case Empty =>
    case Then(past, Probed(_, _)) => WatchCounts(past);
    case Then(past, Claimed(_, _)) => WatchCounts(past);
    case Then(past, LeaseRenewed(_, _, _)) => WatchCounts(past);
    case Then(past, _) => WatchCounts(past);
  }

  lemma {:induction false} WatchSeesSends(h: History)
    ensures Watch(h).sent <==> exists at :: SinceClaim(h, SendStarted(at))
    ensures forall o :: Watch(h).answer == Some(o) ==> SinceClaim(h, SendAnswered(o))
    ensures Watch(h).answer.None? ==> forall o :: !SinceClaim(h, SendAnswered(o))
  {
    match h
    case Empty =>
    case Then(past, e) =>
      WatchSeesSends(past);
      match e
      case SendStarted(at) => assert SinceClaim(h, SendStarted(at));
      case _ =>
  }

  lemma {:induction false} WatchSeesLeases(h: History)
    ensures Watch(h).joined <==> SinceClaim(h, HeartbeatJoined)
    ensures Watch(h).lost <==> SinceClaim(h, LeaseAnswered(Refused(LostAuthority)))
    ensures Watch(h).renewed <==> exists at, x :: SinceClaim(h, LeaseRenewed(at, x, true))
    ensures Watch(h).completed <==> exists d, at :: SinceClaim(h, Completed(d, at))
  {
    match h
    case Empty =>
    case Then(past, e) =>
      WatchSeesLeases(past);
      match e
      case LeaseRenewed(at, x, final) => assert SinceClaim(h, LeaseRenewed(at, x, final));
      case Completed(d, at) => assert SinceClaim(h, Completed(d, at));
      case _ =>
  }

  /** The summary says exactly what the history holds since its newest claim. */
  lemma WatchIsHistory(h: History)
    ensures Watch(h).open == OpenClaim(h) && Watch(h).probe == UnusedProbe(h)
    ensures Watch(h).claims == ClaimCount(h) && Watch(h).claimedAt == ClaimTime(h)
    ensures Watch(h).expiry == NewestExpiry(h)
    ensures Watch(h).sent <==> exists at :: SinceClaim(h, SendStarted(at))
    ensures forall o :: Watch(h).answer == Some(o) ==> SinceClaim(h, SendAnswered(o))
    ensures Watch(h).answer.None? ==> forall o :: !SinceClaim(h, SendAnswered(o))
    ensures Watch(h).joined <==> SinceClaim(h, HeartbeatJoined)
    ensures Watch(h).lost <==> SinceClaim(h, LeaseAnswered(Refused(LostAuthority)))
    ensures Watch(h).renewed <==> exists at, x :: SinceClaim(h, LeaseRenewed(at, x, true))
    ensures Watch(h).completed <==> exists d, at :: SinceClaim(h, Completed(d, at))
  {
    WatchCounts(h);
    WatchSeesSends(h);
    WatchSeesLeases(h);
  }
}
