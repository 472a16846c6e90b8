/** What a shutdown request keeps the delivery worker from starting. */
module DeliveryShutdown {
  import opened MachineInts
  import opened SchedulerPolicy
  import opened DeliveryState
  import opened DeliveryWorker
  import opened DeliveryProgress

  // ---------------------------------------------------------------- the gates

  /** Where the worker looks at the shutdown flag before it goes on with a tick. */
  predicate AtGate(pc: Pc) {
    || pc.LoopTop? || pc.TickTop? || pc.PrepareGate? || pc.SkipGate? || pc.ProbeGate?
    || pc.ClaimGate? || pc.Pausing?
  }

  lemma GateHalts(s: State, clock: I64)
    requires s.shutdown && AtGate(s.pc) && s.claim.None?
    ensures Step(s, Worker(Proceed(clock))).pc == Halted(Ended(Cancelled))
  {
  }

  /** At a gate the worker halts on its next step once a shutdown was requested. */
  lemma GatesHalt(events: seq<Event>, clock: I64)
    requires RequestShutdown in events
    requires AtGate(Run(events).0.pc) && Run(events).0.claim.None?
    ensures Run(events + [Worker(Proceed(clock))]).0.pc == Halted(Ended(Cancelled))
  {
    RunIsReasonable(events);
    GateHalts(Run(events).0, clock);
    RunExtends(events, Worker(Proceed(clock)));
  }

  // ---------------------------------------------------------------- no new claims and sends

  predicate StartsSend(es: Effects) {
    match es
    case Nothing => false
    case One(e) => e.SendStarted?
    case Two(e, f) => e.SendStarted? || f.SendStarted?
  }

  predicate StartsClaim(es: Effects) {
    match es
    case Nothing => false
    case One(e) => e.Claimed?
    case Two(e, f) => e.Claimed? || f.Claimed?
  }

  /** Shutdown was requested, and no claim call is in flight. */
  predicate WontClaim(s: State) {
    s.shutdown && !s.pc.Claiming?
  }

  /** And no send was polled or is about to be. */
  predicate WontSend(s: State) {
    WontClaim(s) && !s.sendPolled && !s.pc.HeartbeatPoll? && !s.pc.SendPoll?
  }

  predicate StaysShut(s: State, next: State) {
    && (WontClaim(s) ==> WontClaim(next) && !StartsClaim(next.emitted))
    && (WontSend(s) ==> WontSend(next) && !StartsSend(next.emitted))
  }

  lemma IdleStaysShut(s: State, i: Input)
    requires s.emitted.Nothing? && s.claim.None?
    ensures StaysShut(s, IdleStep(s, i))
  {
  }

  lemma ProbeStaysShut(s: State, i: Input)
    requires s.emitted.Nothing? && s.claim.None?
    ensures StaysShut(s, ProbeStep(s, i))
  {
  }

  lemma SendStaysShut(s: State, i: Input)
    requires s.emitted.Nothing? && s.claim.Some?
    ensures StaysShut(s, SendPhase(s, i))
  {
  }

  lemma JoinStaysShut(s: State, i: Input)
    requires s.emitted.Nothing? && s.claim.Some? && s.pc.Joining?
    ensures StaysShut(s, JoinStep(s, i))
  {
  }

  lemma CompletionStaysShut(s: State, i: Input)
    requires s.emitted.Nothing? && s.claim.Some?
    ensures StaysShut(s, CompletionPhase(s, i))
  {
  }

  lemma BeatStaysShut(s: State, b: HeartbeatInput)
    requires s.emitted.Nothing?
    ensures StaysShut(s, BeatStep(s, b))
  {
  }

  lemma StepStaysShut(s: State, e: Event)
    ensures StaysShut(s, Step(s, e))
  {
    var started := s.(emitted := Nothing);
    match e
    case Worker(i) =>
      if s.claim.None? {
        IdleStaysShut(started, i);
        ProbeStaysShut(started, i);
      } else if s.pc.Joining? {
        JoinStaysShut(started, i);
      } else {
        SendStaysShut(started, i);
        CompletionStaysShut(started, i);
      }
    case Beat(b) => BeatStaysShut(started, b);
    case _ =>
  }

  /** How many effects of a history start a claim, or a send. */
  function ClaimsIn(h: History): nat {
    match h
    case Empty => 0
    case Then(past, e) => ClaimsIn(past) + if e.Claimed? then 1 else 0
  }

  function SendsIn(h: History): nat {
    match h
    case Empty => 0
    case Then(past, e) => SendsIn(past) + if e.SendStarted? then 1 else 0
  }

  lemma CountsAppend(h: History, es: Effects)
    ensures !StartsClaim(es) ==> ClaimsIn(Append(h, es)) == ClaimsIn(h)
    ensures !StartsSend(es) ==> SendsIn(Append(h, es)) == SendsIn(h)
  {
  }

  /** Claims stay as they are, and so do sends unless one may still follow. */
  ghost predicate NothingNew(a: (State, History), b: (State, History)) {
    && WontClaim(b.0) && ClaimsIn(b.1) == ClaimsIn(a.1)
    && (WontSend(a.0) ==> WontSend(b.0) && SendsIn(b.1) == SendsIn(a.1))
  }

  lemma OneMoreEvent(events: seq<Event>, e: Event)
    requires WontClaim(Run(events).0)
    ensures NothingNew(Run(events), Run(events + [e]))
  {
    var (s, h) := Run(events);
    RunExtends(events, e);
    StepStaysShut(s, e);
    CountsAppend(h, Step(s, e).emitted);
  }

  /**
  Once a shutdown is requested while no claim call is in flight, nothing is claimed any more; and
  while, besides, no send was polled or is about to be, nothing is sent any more.
  */
  lemma {:induction false} ShutdownStopsNewWork(events: seq<Event>, more: seq<Event>)
    requires WontClaim(Run(events).0)
    ensures NothingNew(Run(events), Run(events + more))
  {
    if more == [] {
      assert events + more == events;
    } else {
      var front, last := more[..|more| - 1], more[|more| - 1];
      ShutdownStopsNewWork(events, front);
      assert events + more == (events + front) + [last];
      OneMoreEvent(events + front, last);
    }
  }
}
