/**
The worker does get somewhere: for every delivery that is in time and every provider outcome there
is a run that claims it, sends it and commits that outcome. And it stops only for a reason.
*/
module DeliveryProgress {
  import opened MachineInts
  import opened SchedulerPolicy
  import opened DeliveryState
  import opened DeliveryWorker
  import opened DeliverySafety

  lemma RunExtends(events: seq<Event>, e: Event)
    ensures var (s, h) := Run(events);
            var next := Step(s, e);
            Run(events + [e]) == (next, Append(h, next.emitted))
  {
    assert (events + [e])[..|events|] == events;
  }

  const TICK: Event := Worker(Proceed(0))

  // ---------------------------------------------------------------- to the claim

  /** Outside a claim, at time zero, with nobody asking for shutdown. */
  predicate Idles(s: State, pc: Pc) {
    !s.shutdown && s.last == 0 && s.claim.None? && s.heartbeat.Absent? && s.pc == pc
  }

  lemma TickSteps(s: State)
    ensures Idles(s, LoopTop) ==> Idles(Step(s, TICK), TickTop)
    ensures Idles(s, TickTop) ==> Idles(Step(s, TICK), Reclaiming)
    ensures Idles(s, Reclaiming) ==> Idles(Step(s, Worker(StoreAnswer(Done))), PrepareGate)
    ensures Idles(s, PrepareGate) ==> Idles(Step(s, TICK), PreparePoll)
    ensures Idles(s, PreparePoll) ==>
              Idles(Step(s, Worker(PrepareAnswer(PreparedPayload))), Peeking)
  {
  }

  lemma ProbeSteps(s: State, a: Authority, p: Policy)
    ensures Idles(s, Peeking) ==>
              Idles(Step(s, Worker(PeekAnswer(ProviderRequired(a, p)))), ProbeGate(a, p))
    ensures Idles(s, ProbeGate(a, p)) ==> Idles(Step(s, TICK), ProbePoll(a, p))
    ensures Idles(s, ProbePoll(a, p)) ==>
              Idles(Step(s, Worker(VerdictAnswer(Ready))), ClaimGate(a))
    ensures Idles(s, ClaimGate(a)) ==> Idles(Step(s, TICK), Claiming(a, 0))
  {
  }

  lemma ReachesPeek() returns (events: seq<Event>)
    ensures Idles(Run(events).0, Peeking)
  {
    events := [];
    var script := [TICK, TICK, Worker(StoreAnswer(Done)), TICK,
                   Worker(PrepareAnswer(PreparedPayload))];
    TickSteps(Run(events).0);
    RunExtends(events, script[0]);
    events := events + [script[0]];
    TickSteps(Run(events).0);
    RunExtends(events, script[1]);
    events := events + [script[1]];
    TickSteps(Run(events).0);
    RunExtends(events, script[2]);
    events := events + [script[2]];
    TickSteps(Run(events).0);
    RunExtends(events, script[3]);
    events := events + [script[3]];
    TickSteps(Run(events).0);
    RunExtends(events, script[4]);
    events := events + [script[4]];
  }

  lemma ReachesClaim(a: Authority, p: Policy) returns (events: seq<Event>)
    ensures Idles(Run(events).0, Claiming(a, 0))
  {
    events := ReachesPeek();
    ProbeSteps(Run(events).0, a, p);
    RunExtends(events, Worker(PeekAnswer(ProviderRequired(a, p))));
    events := events + [Worker(PeekAnswer(ProviderRequired(a, p)))];
    ProbeSteps(Run(events).0, a, p);
    RunExtends(events, TICK);
    events := events + [TICK];
    ProbeSteps(Run(events).0, a, p);
    RunExtends(events, Worker(VerdictAnswer(Ready)));
    events := events + [Worker(VerdictAnswer(Ready))];
    ProbeSteps(Run(events).0, a, p);
    RunExtends(events, TICK);
    events := events + [TICK];
  }

  // ---------------------------------------------------------------- to the completion

  /** A delivery as the store hands it out. */
  datatype Delivery = Delivery(id: seq<bv8>, attempt: I64, createdAt: I64, version: U32,
                               policy: Policy)

  predicate InTime(d: Delivery) {
    0 < d.createdAt + d.policy.deliveryDeadlineSeconds <= I64_MAX
  }

  /** Holding the claim of a delivery, at time zero. */
  predicate Holds(s: State, d: Delivery, pc: Pc, heartbeat: Heartbeat) {
    && !s.shutdown && s.last == 0 && s.pc == pc && s.heartbeat == heartbeat && s.claim.Some?
    && s.claim.value.deliveryId == d.id && s.claim.value.attempt == d.attempt
    && s.claim.value.createdAt == d.createdAt && s.claim.value.policyVersion == d.version
    && s.claim.value.policy == d.policy
  }

  function ClaimedBy(d: Delivery): Event {
    Worker(ClaimAnswer(d.id, d.attempt, d.createdAt, d.version, d.policy))
  }

  lemma ClaimSteps(s: State, a: Authority, d: Delivery)
    requires InTime(d)
    ensures Idles(s, Claiming(a, 0)) ==>
              Holds(Step(s, ClaimedBy(d)), d, DispatchGate, Sleeping(false))
    ensures Holds(s, d, DispatchGate, Sleeping(false)) ==>
              Holds(Step(s, TICK), d, DeadlineGate, Sleeping(false))
    ensures Holds(s, d, DeadlineGate, Sleeping(false)) ==>
              Holds(Step(s, TICK), d, CancelPoll(0), Sleeping(false))
  {
  }

  lemma SendSteps(s: State, d: Delivery)
    ensures Holds(s, d, CancelPoll(0), Sleeping(false)) ==>
              Holds(Step(s, TICK), d, HeartbeatPoll(0), Sleeping(false))
    ensures Holds(s, d, HeartbeatPoll(0), Sleeping(false)) ==>
              Holds(Step(s, TICK), d, SendPoll(0), Sleeping(false))
  {
  }

  lemma AnswerSteps(s: State, d: Delivery, outcome: ProviderOutcome)
    ensures Holds(s, d, SendPoll(0), Sleeping(false)) ==>
              Holds(Step(s, Worker(SendOutcome(outcome))), d, Joining(ThenFinalize(outcome)),
                    Sleeping(true))
    ensures Holds(s, d, Joining(ThenFinalize(outcome)), Sleeping(true)) ==>
              Holds(Step(s, Beat(StopSeen)), d, Joining(ThenFinalize(outcome)), Finished(Stopped))
  {
  }

  lemma CommitSteps(s: State, d: Delivery, outcome: ProviderOutcome)
    ensures Holds(s, d, Joining(ThenFinalize(outcome)), Finished(Stopped)) ==>
              Holds(Step(s, TICK), d, Finalizing(outcome), Joined)
    ensures Holds(s, d, Finalizing(outcome), Joined) ==>
              Holds(Step(s, TICK), d, FinalRenewing(outcome), Joined)
  {
  }

  lemma FinalSteps(s: State, d: Delivery, outcome: ProviderOutcome)
    ensures Holds(s, d, FinalRenewing(outcome), Joined) ==>
              Holds(Step(s, Worker(StoreAnswer(Done))), d, Completing(outcome), Joined)
    ensures Holds(s, d, Completing(outcome), Joined) ==>
              Step(s, TICK).emitted == One(Completed(Report(outcome), 0))
  {
  }

  lemma ReachesSend(d: Delivery) returns (events: seq<Event>)
    requires InTime(d)
    ensures Holds(Run(events).0, d, CancelPoll(0), Sleeping(false))
  {
    events := ReachesClaim(0, d.policy);
    ClaimSteps(Run(events).0, 0, d);
    RunExtends(events, ClaimedBy(d));
    events := events + [ClaimedBy(d)];
    ClaimSteps(Run(events).0, 0, d);
    RunExtends(events, TICK);
    events := events + [TICK];
    ClaimSteps(Run(events).0, 0, d);
    RunExtends(events, TICK);
    events := events + [TICK];
  }

  lemma ReachesJoin(d: Delivery, outcome: ProviderOutcome) returns (events: seq<Event>)
    requires InTime(d)
    ensures Holds(Run(events).0, d, Joining(ThenFinalize(outcome)), Finished(Stopped))
  {
    events := ReachesSend(d);
    SendSteps(Run(events).0, d);
    RunExtends(events, TICK);
    events := events + [TICK];
    SendSteps(Run(events).0, d);
    RunExtends(events, TICK);
    events := events + [TICK];
    AnswerSteps(Run(events).0, d, outcome);
    RunExtends(events, Worker(SendOutcome(outcome)));
    events := events + [Worker(SendOutcome(outcome))];
    AnswerSteps(Run(events).0, d, outcome);
    RunExtends(events, Beat(StopSeen));
    events := events + [Beat(StopSeen)];
  }

  /** Every delivery that is in time can be sent, with every outcome committed as it is. */
  lemma DeliveriesCanComplete(d: Delivery, outcome: ProviderOutcome)
    returns (events: seq<Event>, past: History)
    requires InTime(d)
    ensures Occurs(Run(events).1, past, Completed(Report(outcome), 0))
    ensures OpenClaim(past).Some?
    ensures var c := OpenClaim(past).value;
            && c.deliveryId == d.id && c.attempt == d.attempt && c.createdAt == d.createdAt
            && c.policyVersion == d.version && c.policy == d.policy
  {
    events := ReachesJoin(d, outcome);
    CommitSteps(Run(events).0, d, outcome);
    RunExtends(events, TICK);
    events := events + [TICK];
    CommitSteps(Run(events).0, d, outcome);
    RunExtends(events, TICK);
    events := events + [TICK];
    FinalSteps(Run(events).0, d, outcome);
    RunExtends(events, Worker(StoreAnswer(Done)));
    events := events + [Worker(StoreAnswer(Done))];
    FinalSteps(Run(events).0, d, outcome);
    past := Run(events).1;
    RunKeeps(events);
    WatchIsHistory(past);
    RunExtends(events, TICK);
    events := events + [TICK];
  }

  // ---------------------------------------------------------------- the heartbeat

  lemma BeatRenews(s: State, clock: I64)
    requires s.claim.Some? && s.heartbeat == Sleeping(false)
    ensures var t := Step(s, Beat(IntervalElapsed(clock)));
            var now := Max(s.last, Max(clock, 0));
            var expiresAt := now + s.claim.value.policy.deliveryLeaseSeconds;
            if expiresAt <= I64_MAX
            then t.heartbeat == Renewing(false)
                 && t.emitted == One(LeaseRenewed(now, expiresAt, false))
            else t.heartbeat == Finished(Died(OtherError)) && t.emitted == Nothing
  {
  }

  lemma BeatAnswers(s: State, answer: Answer)
    requires s.heartbeat.Renewing?
    ensures var t := Step(s, Beat(RenewAnswer(answer)));
            match answer
            case Done => t.heartbeat == Sleeping(s.heartbeat.stopRequested)
            case Refused(error) => t.heartbeat == Finished(Died(error))
  {
  }

  /**
  In every run a claim's heartbeat renews the lease whenever its interval elapses, unless it was
  asked to stop or the expiry cannot be represented.
  */
  lemma HeartbeatsRenew(events: seq<Event>, clock: I64)
    requires var s := Run(events).0; s.claim.Some? && s.heartbeat == Sleeping(false)
    ensures var (s, h) := Run(events);
            var (t, g) := Run(events + [Beat(IntervalElapsed(clock))]);
            var now := Max(s.last, Max(clock, 0));
            var expiresAt := now + s.claim.value.policy.deliveryLeaseSeconds;
            if expiresAt <= I64_MAX
            then t.heartbeat == Renewing(false) && g == Then(h, LeaseRenewed(now, expiresAt, false))
            else t.heartbeat == Finished(Died(OtherError)) && g == h
  {
    RunExtends(events, Beat(IntervalElapsed(clock)));
    BeatRenews(Run(events).0, clock);
  }

  /** A refused renewal ends it with the store's error; otherwise it sleeps again. */
  lemma RefusalsEndHeartbeats(events: seq<Event>, answer: Answer)
    requires Run(events).0.heartbeat.Renewing?
    ensures var s, t := Run(events).0, Run(events + [Beat(RenewAnswer(answer))]).0;
            t.heartbeat == match answer
                           case Done => Sleeping(s.heartbeat.stopRequested)
                           case Refused(error) => Finished(Died(error))
  {
    RunExtends(events, Beat(RenewAnswer(answer)));
    BeatAnswers(Run(events).0, answer);
  }

  // ---------------------------------------------------------------- stopping for a reason

  /** Where the worker is only after it saw a shutdown request. */
  predicate AfterShutdown(pc: Pc) {
    pc == Joining(ThenRelease) || pc == Releasing || pc == Halted(Ended(Cancelled))
  }

  /** The worker halts for a cancellation, an error that is not transient, or a panic. */
  predicate HaltFits(pc: Pc) {
    pc.Halted? ==>
      || pc.result == Ended(Cancelled)
      || (pc.result.Failed? && !pc.result.error.TransientContention?)
      || pc.result.Unwound?
  }

  predicate Releases(es: Effects) {
    match es
    case Nothing => false
    case One(e) => e.Completed? && e.decision.Release?
    case Two(e, f) => (e.Completed? && e.decision.Release?) || (f.Completed? && f.decision.Release?)
  }

  predicate Reasonable(s: State) {
    (AfterShutdown(s.pc) ==> s.shutdown) && HaltFits(s.pc)
  }

  /** The step needs no shutdown request, or there was one. */
  predicate StaysReasonable(s: State, next: State) {
    next.shutdown == s.shutdown && Reasonable(next) && (Releases(next.emitted) ==> s.shutdown)
  }

  lemma IdleIsReasonable(s: State, i: Input)
    requires Reasonable(s) && s.emitted.Nothing? && s.claim.None?
    ensures StaysReasonable(s, IdleStep(s, i))
  {
  }

  lemma ProbeIsReasonable(s: State, i: Input)
    requires Reasonable(s) && s.emitted.Nothing? && s.claim.None?
    ensures StaysReasonable(s, ProbeStep(s, i))
  {
  }

  lemma SendIsReasonable(s: State, i: Input)
    requires Reasonable(s) && s.emitted.Nothing? && s.claim.Some?
    ensures StaysReasonable(s, SendPhase(s, i))
  {
  }

  lemma JoinIsReasonable(s: State, i: Input)
    requires Reasonable(s) && s.emitted.Nothing? && s.claim.Some? && s.pc.Joining?
    ensures StaysReasonable(s, JoinStep(s, i))
  {
  }

  lemma CompletionIsReasonable(s: State, i: Input)
    requires Reasonable(s) && s.emitted.Nothing? && s.claim.Some?
    ensures StaysReasonable(s, CompletionPhase(s, i))
  {
  }

  lemma BeatIsReasonable(s: State, b: HeartbeatInput)
    requires Reasonable(s) && s.emitted.Nothing?
    ensures StaysReasonable(s, BeatStep(s, b))
  {
  }

  lemma WorkerIsReasonable(s: State, i: Input)
    requires Reasonable(s) && s.emitted.Nothing?
    ensures StaysReasonable(s, WorkerStep(s, i))
  {
    if s.claim.None? {
      IdleIsReasonable(s, i);
      ProbeIsReasonable(s, i);
    } else if s.pc.Joining? {
      JoinIsReasonable(s, i);
    } else {
      SendIsReasonable(s, i);
      CompletionIsReasonable(s, i);
    }
  }

  lemma StepIsReasonable(s: State, e: Event)
    requires Reasonable(s)
    ensures var next := Step(s, e);
            && Reasonable(next) && (next.shutdown <==> s.shutdown || e.RequestShutdown?)
            && (Releases(next.emitted) ==> s.shutdown)
  {
    var started := s.(emitted := Nothing);
    match e
    case Worker(i) => WorkerIsReasonable(started, i);
    case Beat(b) => BeatIsReasonable(started, b);
    case _ =>
  }

  predicate EverReleased(h: History) {
    match h
    case Empty => false
    case Then(past, e) => (e.Completed? && e.decision.Release?) || EverReleased(past)
  }

  lemma {:induction false} RunIsReasonable(events: seq<Event>)
    ensures var (s, h) := Run(events);
            && Reasonable(s) && (s.shutdown <==> RequestShutdown in events)
            && (EverReleased(h) ==> s.shutdown)
  {
    if events != [] {
      var before, e := events[..|events| - 1], events[|events| - 1];
      assert events == before + [e];
      RunIsReasonable(before);
      var (s, h) := Run(before);
      StepIsReasonable(s, e);
      EverReleasedAppend(h, Step(s, e).emitted);
      RunExtends(before, e);
    }
  }

  lemma EverReleasedAppend(h: History, es: Effects)
    ensures EverReleased(Append(h, es)) <==> EverReleased(h) || Releases(es)
  {
  }

  lemma {:induction false} OccurredRelease(h: History, past: History, at: I64)
    requires Occurs(h, past, Completed(Release, at))
    ensures EverReleased(h)
  {
    if h.effect != Completed(Release, at) || h.past != past {
      OccurredRelease(h.past, past, at);
    }
  }

  /** A claim is released unsent only after a shutdown was requested. */
  lemma ReleasesFollowShutdown(events: seq<Event>, past: History, at: I64)
    requires Occurs(Run(events).1, past, Completed(Release, at))
    ensures RequestShutdown in events
  {
    OccurredRelease(Run(events).1, past, at);
    RunIsReasonable(events);
  }

  /**
  The worker halts only because a shutdown was requested, a store error was not transient, or a
  task panicked; everything else it goes on from.
  */
  lemma WorkersHaltForAReason(events: seq<Event>)
    requires Run(events).0.pc.Halted?
    ensures match Run(events).0.pc.result
            case Ended(outcome) => outcome == Cancelled && RequestShutdown in events
            case Failed(error) => error != TransientContention
            case Unwound => true
  {
    RunIsReasonable(events);
  }
}
