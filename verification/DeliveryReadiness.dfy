/** The readiness backoff of the delivery worker, over whole runs of the worker. */
module DeliveryReadiness {
  import opened MachineInts
  import opened SchedulerPolicy
  import opened DeliveryState
  import opened DeliveryWorker
  import opened DeliverySafety

  /** How many probes were deferred since the last one that answered Ready. */
  function DeferralsIn(h: History): nat {
    match h
    case Empty => 0
    case Then(_, Probed(_, Ready)) => 0
    case Then(past, Probed(_, Deferred(_))) => DeferralsIn(past) + 1
    case Then(past, _) => DeferralsIn(past)
  }

  /** A deferral follows its probe and uses the streak left by the probes before that. */
  predicate Counted(past: History, streak: U32, hint: Option<U64>) {
    && past.Then? && past.effect.Probed? && past.effect.verdict == Deferred(hint)
    && streak == Min(DeferralsIn(past.past), U32_MAX)
  }

  predicate AllCounted(h: History) {
    match h
    case Empty => true
    case Then(past, Deferring(_, streak, hint)) => AllCounted(past) && Counted(past, streak, hint)
    case Then(past, _) => AllCounted(past)
  }

  predicate StreakInvariant(s: State, h: History) {
    AllCounted(h) && s.streak == Min(DeferralsIn(h), U32_MAX)
  }

  // ---------------------------------------------------------------- steps that probe nothing

  predicate ProbesNothing(es: Effects) {
    match es
    case Nothing => true
    case One(e) => !e.Probed? && !e.Deferring?
    case Two(e, f) => !e.Probed? && !e.Deferring? && !f.Probed? && !f.Deferring?
  }

  /** The step leaves the streak alone and probes nothing. */
  predicate Unrelated(s: State, next: State) {
    next.streak == s.streak && ProbesNothing(next.emitted)
  }

  lemma IdleIsUnrelated(s: State, i: Input)
    requires s.emitted.Nothing?
    ensures Unrelated(s, IdleStep(s, i)) && Unrelated(s, ClaimStep(s, i))
  {
  }

  lemma SendPhaseIsUnrelated(s: State, i: Input)
    requires s.emitted.Nothing? && s.claim.Some?
    ensures Unrelated(s, SendPhase(s, i))
  {
  }

  lemma JoinIsUnrelated(s: State, i: Input)
    requires s.emitted.Nothing? && s.claim.Some? && s.pc.Joining?
    ensures Unrelated(s, JoinStep(s, i))
  {
  }

  lemma CompletionIsUnrelated(s: State, i: Input)
    requires s.emitted.Nothing? && s.claim.Some?
    ensures Unrelated(s, CompletionPhase(s, i))
  {
  }

  lemma BeatIsUnrelated(s: State, b: HeartbeatInput)
    requires s.emitted.Nothing?
    ensures Unrelated(s, BeatStep(s, b))
  {
  }

  lemma {:induction false} UnrelatedKeeps(s: State, h: History, next: State)
    requires StreakInvariant(s, h) && Unrelated(s, next)
    ensures StreakInvariant(next, Append(h, next.emitted))
  {
    match next.emitted
    case Nothing =>
    case One(e) =>
    case Two(e, f) => assert DeferralsIn(Then(h, e)) == DeferralsIn(h);
  }

  // ---------------------------------------------------------------- the probe

  lemma ProbeKeeps(s: State, h: History, i: Input)
    requires StreakInvariant(s, h) && s.emitted.Nothing? && s.claim.None? && s.pc.ProbePoll?
    ensures var next := ProbePollStep(s, i); StreakInvariant(next, Append(h, next.emitted))
  {
  }

  lemma WorkerKeeps(s: State, h: History, i: Input)
    requires StreakInvariant(s, h) && s.emitted.Nothing?
    ensures var next := WorkerStep(s, i); StreakInvariant(next, Append(h, next.emitted))
  {
    if s.claim.None? && s.pc.ProbePoll? {
      ProbeKeeps(s, h, i);
    } else {
      if s.claim.None? {
        IdleIsUnrelated(s, i);
      } else if s.pc.Joining? {
        JoinIsUnrelated(s, i);
      } else if InSendPhase(s.pc) {
        SendPhaseIsUnrelated(s, i);
      } else {
        CompletionIsUnrelated(s, i);
      }
      UnrelatedKeeps(s, h, WorkerStep(s, i));
    }
  }

  lemma {:induction false} RunKeepsStreak(events: seq<Event>)
    ensures var (s, h) := Run(events); StreakInvariant(s, h)
  {
    if events != [] {
      var e := events[|events| - 1];
      var (s, h) := Run(events[..|events| - 1]);
      RunKeepsStreak(events[..|events| - 1]);
      var started := s.(emitted := Nothing);
      match e
      case Worker(i) => WorkerKeeps(started, h, i);
      case Beat(b) =>
        BeatIsUnrelated(started, b);
        UnrelatedKeeps(started, h, BeatStep(started, b));
      case _ =>
    }
  }

  lemma {:induction false} OccurrencesAreCounted(h: History, past: History, p: Policy, streak: U32,
                                                 hint: Option<U64>)
    requires AllCounted(h) && Occurs(h, past, Deferring(p, streak, hint))
    ensures Counted(past, streak, hint)
  {
    if h.past != past || h.effect != Deferring(p, streak, hint) {
      OccurrencesAreCounted(h.past, past, p, streak, hint);
    }
  }

  /**
  Whatever else the worker does in between, a deferral under an accepted policy waits for the base
  doubled once per deferral since the last Ready before it, up to its cap, or for the provider's
  capped hint when that is longer.
  */
  lemma DeferralsWaitAsDesigned(events: seq<Event>, past: History, p: Policy, streak: U32,
                                hint: Option<U64>)
    requires Occurs(Run(events).1, past, Deferring(p, streak, hint)) && SchedulerPolicy.Valid(p)
    ensures past.Then? && past.effect.Probed? && past.effect.verdict == Deferred(hint)
    ensures WaitForStreak(p, streak, hint) == WaitAfterDeferrals(p, DeferralsIn(past.past), hint)
  {
    RunKeepsStreak(events);
    OccurrencesAreCounted(Run(events).1, past, p, streak, hint);
    ValidImpliesBounds(p);
    WaitMatchesDeferralCount(p, DeferralsIn(past.past), hint);
  }
}
