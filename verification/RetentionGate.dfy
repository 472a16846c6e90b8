/**
The shutdown barrier around retention cleanup: a watch flag and an async mutex shared by any
number of cleanup attempts and shutdown requests.
*/
module RetentionGate {
  import opened MachineInts

  datatype Cleanup = Waiting | Admitted | Cleaning | Over

  datatype Request = Sending | Queued(delivered: bool) | Barred(delivered: bool)
                   | Returned(delivered: bool)

  datatype Party = ByCleanup(cleanup: nat) | ByRequest(request: nat)

  /** Other tasks hold receivers of the flag too; every unfinished cleanup attempt holds one. */
  datatype State = State(
    flag: bool,
    otherReceivers: nat,
    gate: Option<Party>,
    cleanups: map<nat, Cleanup>,
    requests: map<nat, Request>
  )

  const INITIAL: State := State(false, 0, None, map[], map[])

  predicate ReceiverAlive(s: State) {
    s.otherReceivers > 0 || exists c | c in s.cleanups :: !s.cleanups[c].Over?
  }

  datatype Event =
    | Subscribe
    | Unsubscribe
    | BeginCleanup(cleanup: nat)
    | CancelWaiting(cleanup: nat)
    | AdmitCleanup(cleanup: nat)
    | CheckFlag(cleanup: nat)
    | EndCleanup(cleanup: nat)
    | BeginRequest(request: nat)
    | SendFlag(request: nat)
    | LockGate(request: nat)
    | ReturnRequest(request: nat)

  predicate CleanupAt(s: State, c: nat, phase: Cleanup) {
    c in s.cleanups && s.cleanups[c] == phase
  }

  function SetCleanup(s: State, c: nat, phase: Cleanup): State {
    s.(cleanups := s.cleanups[c := phase])
  }

  function SetRequest(s: State, r: nat, phase: Request): State {
    s.(requests := s.requests[r := phase])
  }

  /** Sending on the watch channel changes the flag only while some receiver is alive. */
  function Send(s: State, r: nat): State {
    var delivered := s.flag || ReceiverAlive(s);
    SetRequest(s, r, Queued(delivered)).(flag := delivered)
  }

  function Step(s: State, e: Event): State {
    match e
    case Subscribe => s.(otherReceivers := s.otherReceivers + 1)
    case Unsubscribe =>
      if s.otherReceivers > 0 then s.(otherReceivers := s.otherReceivers - 1) else s
    case BeginCleanup(c) => if c in s.cleanups then s else SetCleanup(s, c, Waiting)
    case CancelWaiting(c) =>
      if CleanupAt(s, c, Waiting) && s.flag then SetCleanup(s, c, Over) else s
    case AdmitCleanup(c) =>
      if CleanupAt(s, c, Waiting) && s.gate.None?
      then SetCleanup(s, c, Admitted).(gate := Some(ByCleanup(c))) else s
    case CheckFlag(c) =>
      if !CleanupAt(s, c, Admitted) then s
      else if s.flag then SetCleanup(s, c, Over).(gate := None)
      else SetCleanup(s, c, Cleaning)
    case EndCleanup(c) =>
      if CleanupAt(s, c, Cleaning) then SetCleanup(s, c, Over).(gate := None) else s
    case BeginRequest(r) => if r in s.requests then s else SetRequest(s, r, Sending)
    case SendFlag(r) => if r in s.requests && s.requests[r].Sending? then Send(s, r) else s
    case LockGate(r) =>
      if r in s.requests && s.requests[r].Queued? && s.gate.None?
      then SetRequest(s, r, Barred(s.requests[r].delivered)).(gate := Some(ByRequest(r))) else s
    case ReturnRequest(r) =>
      if r in s.requests && s.requests[r].Barred?
      then SetRequest(s, r, Returned(s.requests[r].delivered)).(gate := None) else s
  }

  function RunFrom(s: State, events: seq<Event>): State
    decreases |events|
  {
    if events == [] then s else RunFrom(Step(s, events[0]), events[1..])
  }

  // ---------------------------------------------------------------- the barrier

  predicate Delivered(request: Request) {
    !request.Sending? && request.delivered
  }

  /** Whoever is past the gate holds it, a delivered flag stays up, and a return bars cleanups. */
  ghost predicate Invariant(s: State) {
    && (forall c | c in s.cleanups :: s.cleanups[c].Admitted? || s.cleanups[c].Cleaning?
                                      <==> s.gate == Some(ByCleanup(c)))
    && (forall r | r in s.requests :: s.requests[r].Barred? <==> s.gate == Some(ByRequest(r)))
    && (s.gate.Some? && s.gate.value.ByCleanup? ==> s.gate.value.cleanup in s.cleanups)
    && (s.gate.Some? && s.gate.value.ByRequest? ==> s.gate.value.request in s.requests)
    && (forall r | r in s.requests && Delivered(s.requests[r]) :: s.flag)
    && (forall r, c | r in s.requests && c in s.cleanups ::
          s.requests[r] == Returned(true) ==> !s.cleanups[c].Cleaning?)
  }

  lemma StepKeeps(s: State, e: Event)
    requires Invariant(s)
    ensures Invariant(Step(s, e))
  {
  }

  lemma {:induction false} RunKeeps(s: State, events: seq<Event>)
    requires Invariant(s)
    ensures Invariant(RunFrom(s, events))
    decreases |events|
  {
    if events != [] {
      StepKeeps(s, events[0]);
      RunKeeps(Step(s, events[0]), events[1..]);
    }
  }

  lemma {:induction false} ReturnsLast(s: State, events: seq<Event>, r: nat)
    requires r in s.requests && s.requests[r].Returned?
    ensures var later := RunFrom(s, events);
            r in later.requests && later.requests[r] == s.requests[r]
    decreases |events|
  {
    if events != [] {
      ReturnsLast(Step(s, events[0]), events[1..], r);
    }
  }

  ghost predicate Quiet(s: State) {
    forall c | c in s.cleanups :: !s.cleanups[c].Cleaning?
  }

  /** Once a request whose flag was delivered has returned, no cleanup body runs ever again. */
  lemma RetentionBarrier(events: seq<Event>, more: seq<Event>, r: nat)
    requires var s := RunFrom(INITIAL, events);
             r in s.requests && s.requests[r] == Returned(true)
    ensures Quiet(RunFrom(INITIAL, events))
    ensures Quiet(RunFrom(RunFrom(INITIAL, events), more))
  {
    var s := RunFrom(INITIAL, events);
    RunKeeps(INITIAL, events);
    RunKeeps(s, more);
    ReturnsLast(s, more, r);
  }

  // ---------------------------------------------------------------- exactly when it holds

  /** Every way on from here leaves no cleanup running once the request has returned. */
  ghost predicate Bars(s: State, r: nat) {
    forall events: seq<Event> ::
      var later := RunFrom(s, events);
      r in later.requests && later.requests[r].Returned? ==> Quiet(later)
  }

  lemma {:induction false} DeliveryIsRemembered(s: State, events: seq<Event>, r: nat)
    requires r in s.requests && Delivered(s.requests[r])
    ensures var later := RunFrom(s, events);
            r in later.requests && Delivered(later.requests[r])
    decreases |events|
  {
    if events != [] {
      DeliveryIsRemembered(Step(s, events[0]), events[1..], r);
    }
  }

  lemma RunCons(s: State, e: Event, es: seq<Event>)
    ensures RunFrom(s, [e] + es) == RunFrom(Step(s, e), es)
  {
    assert ([e] + es)[1..] == es;
  }

  /** From a free gate an unheard request returns, and a cleanup begun afterwards runs. */
  lemma LateCleanupRuns(s: State, r: nat, c: nat) returns (events: seq<Event>)
    requires r in s.requests && s.requests[r] == Queued(false)
    requires s.gate.None? && !s.flag && c !in s.cleanups
    ensures var later := RunFrom(s, events);
            && r in later.requests && later.requests[r].Returned?
            && CleanupAt(later, c, Cleaning)
  {
    var s1 := Step(s, LockGate(r));
    var s2 := Step(s1, ReturnRequest(r));
    var s3 := Step(s2, BeginCleanup(c));
    var s4 := Step(s3, AdmitCleanup(c));
    events := [];
    RunCons(s4, CheckFlag(c), events);
    events := [CheckFlag(c)] + events;
    RunCons(s3, AdmitCleanup(c), events);
    events := [AdmitCleanup(c)] + events;
    RunCons(s2, BeginCleanup(c), events);
    events := [BeginCleanup(c)] + events;
    RunCons(s1, ReturnRequest(r), events);
    events := [ReturnRequest(r)] + events;
    RunCons(s, LockGate(r), events);
    events := [LockGate(r)] + events;
  }

  /**
  A request bars cleanups for good exactly when the flag is already up or some receiver is alive
  at the moment it sends. The number c stands for a cleanup attempt not begun yet.
  */
  lemma BarrierNeedsAReceiver(s: State, r: nat, c: nat)
    requires Invariant(s) && r in s.requests && s.requests[r].Sending? && c !in s.cleanups
    ensures Bars(Step(s, SendFlag(r)), r) <==> s.flag || ReceiverAlive(s)
  {
    var sent := Step(s, SendFlag(r));
    StepKeeps(s, SendFlag(r));
    if s.flag || ReceiverAlive(s) {
      forall events: seq<Event>
        ensures var later := RunFrom(sent, events);
                r in later.requests && later.requests[r].Returned? ==> Quiet(later)
      {
        DeliveryIsRemembered(sent, events, r);
        RunKeeps(sent, events);
      }
    } else {
      var events;
      if s.gate.None? {
        events := LateCleanupRuns(sent, r, c);
      } else {
        var free := ReturnRequest(s.gate.value.request);
        var rest := LateCleanupRuns(Step(sent, free), r, c);
        RunCons(sent, free, rest);
        events := [free] + rest;
      }
      assert !Quiet(RunFrom(sent, events));
    }
  }

  // ---------------------------------------------------------------- requests do return

  lemma RunTwo(s: State, a: Event, b: Event)
    ensures RunFrom(s, [a]) == Step(s, a)
    ensures RunFrom(s, [a, b]) == Step(Step(s, a), b)
  {
    RunCons(s, a, []);
    RunCons(s, a, [b]);
    RunCons(Step(s, a), b, []);
    assert [a] + [] == [a] && [b] + [] == [b] && [a] + [b] == [a, b];
  }

  lemma {:induction false} RunConcat(s: State, a: seq<Event>, b: seq<Event>)
    ensures RunFrom(s, a + b) == RunFrom(RunFrom(s, a), b)
    decreases |a|
  {
    if a == [] {
      assert a + b == b;
    } else {
      RunConcat(Step(s, a[0]), a[1..], b);
      assert (a + b)[1..] == a[1..] + b;
    }
  }

  /** Whoever holds the gate can give it back, without any request being queued or sent anew. */
  lemma GateFrees(s: State, r: nat) returns (events: seq<Event>)
    requires Invariant(s) && r in s.requests && s.requests[r].Queued?
    ensures var later := RunFrom(s, events);
            && later.gate.None? && r in later.requests && later.requests[r] == s.requests[r]
  {
    events := [];
    if s.gate.Some? {
      if s.gate.value.ByRequest? {
        var free := ReturnRequest(s.gate.value.request);
        RunTwo(s, free, free);
        events := [free];
      } else {
        var c := s.gate.value.cleanup;
        RunTwo(s, CheckFlag(c), EndCleanup(c));
        events := [CheckFlag(c), EndCleanup(c)];
      }
    }
  }

  /** A request that has sent its flag can always return, telling whether it was delivered. */
  lemma QueuedRequestsReturn(s: State, r: nat) returns (events: seq<Event>)
    requires Invariant(s) && r in s.requests && s.requests[r].Queued?
    ensures var later := RunFrom(s, events);
            && r in later.requests && later.requests[r] == Returned(s.requests[r].delivered)
  {
    var freeing := GateFrees(s, r);
    var free := RunFrom(s, freeing);
    RunTwo(free, LockGate(r), ReturnRequest(r));
    RunConcat(s, freeing, [LockGate(r), ReturnRequest(r)]);
    events := freeing + [LockGate(r), ReturnRequest(r)];
  }

  /** So from every reachable state a request about to send is heard exactly when it can be. */
  lemma RequestsReturn(before: seq<Event>, r: nat) returns (events: seq<Event>)
    requires var s := RunFrom(INITIAL, before); r in s.requests && s.requests[r].Sending?
    ensures var s := RunFrom(INITIAL, before);
            var later := RunFrom(s, events);
            && r in later.requests
            && later.requests[r] == Returned(s.flag || ReceiverAlive(s))
  {
    var s := RunFrom(INITIAL, before);
    RunKeeps(INITIAL, before);
    StepKeeps(s, SendFlag(r));
    var rest := QueuedRequestsReturn(Step(s, SendFlag(r)), r);
    RunCons(s, SendFlag(r), rest);
    events := [SendFlag(r)] + rest;
  }
}
