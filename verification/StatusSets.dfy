/** Which status updates a controller accepts, and that the last one is the one it sends last. */
module StatusSets {
  import opened MachineInts
  import opened AssistantStatus
  import opened StatusQuiescence

  /** The session was started and has not ended. */
  predicate Open(t: Controller, s: Session) {
    s in t.sessions && !t.sessions[s].closed
  }

  function Pendings(entries: seq<Entry>): (r: seq<Pending>)
    ensures |r| == |entries| && forall k | 0 <= k < |r| :: r[k] == entries[k].pending
  {
    seq(|entries|, k requires 0 <= k < |entries| => entries[k].pending)
  }

  /** What one event adds to a dispatcher: an update of an open session, on the registered one. */
  ghost function Accepts(t: Controller, e: Event, i: nat): seq<Pending> {
    match e
    case SetState(s, status) =>
      if Open(t, s) && t.registered == Some(i) then [Pending(s, status)] else []
    case _ => []
  }

  /** The updates of a run that one dispatcher is to accept, texts included, in order. */
  ghost function AcceptedOn(events: seq<Event>, i: nat): seq<Pending> {
    if events == [] then []
    else
      var before := events[..|events| - 1];
      AcceptedOn(before, i) + Accepts(Run(before), events[|events| - 1], i)
  }

  // ---------------------------------------------------------------- what each event accepts

  lemma MarkKeepsPendings(entries: seq<Entry>, from: Fate, to: Fate)
    ensures Pendings(Mark(entries, from, to)) == Pendings(entries)
  {
  }

  lemma ReceiveKeepsPendings(d: Dispatcher)
    requires d.phase.Resting? && d.queue != []
    ensures Pendings(Receive(d).accepted) == Pendings(d.accepted)
  {
    MarkKeepsPendings(d.accepted, Waiting, Taken);
  }

  lemma CheckKeepsPendings(d: Dispatcher)
    requires d.phase.Checking?
    ensures Pendings(Check(d).accepted) == Pendings(d.accepted)
  {
    MarkKeepsPendings(d.accepted, Taken, Sent);
    MarkKeepsPendings(d.accepted, Taken, Stale(d.board.current));
  }

  lemma AcceptAddsPending(d: Dispatcher, p: Pending)
    requires d.board.current == p.session
    ensures Pendings(AcceptSet(d, p).accepted) == Pendings(d.accepted) + [p]
    ensures AcceptSet(d, p).board.pending == Some(p)
  {
    MarkKeepsPendings(d.accepted, Waiting, Replaced);
  }

  /** The sets a controller's dispatchers have accepted are the same. */
  ghost predicate SameSets(t: Controller, r: Controller) {
    && |t.dispatchers| <= |r.dispatchers|
    && forall i | 0 <= i < |r.dispatchers| ::
         Pendings(r.dispatchers[i].accepted) == Pendings(DispatcherAt(t, i).accepted)
  }

  lemma StartSameSets(t: Controller, skipped: nat)
    requires WellFormed(t)
    ensures SameSets(t, StartSession(t, skipped))
  {
  }

  lemma FinishSameSets(t: Controller, s: Session)
    requires WellFormed(t) && s in t.sessions
    ensures SameSets(t, Finish(t, s))
  {
  }

  lemma DropSameSets(t: Controller, s: Session)
    requires WellFormed(t) && s in t.sessions
    ensures SameSets(t, Drop(t, s))
  {
    if t.sessions[s].shouldClear {
      FinishSameSets(t.(guard := None), s);
    }
  }

  lemma CommandSameSets(t: Controller, e: Event)
    requires WellFormed(t) && (e.Deliver? || e.Confirm?)
    ensures SameSets(t, Step(t, e))
  {
    var i := e.dispatcher;
    if Step(t, e) != t {
      if e.Deliver? {
        ReceiveKeepsPendings(t.dispatchers[i]);
      } else {
        CheckKeepsPendings(t.dispatchers[i]);
      }
    }
  }

  lemma TransportSameSets(t: Controller, i: nat, ok: bool)
    requires i < |t.dispatchers|
    ensures SameSets(t, LandCall(t, i))
    ensures t.dispatchers[i].phase.Setting? ==> SameSets(t, ReturnSet(t, i, ok))
    ensures t.dispatchers[i].phase.Clearing? ==> SameSets(t, ReturnClear(t, i))
  {
  }

  lemma OthersSameSets(t: Controller, e: Event)
    requires WellFormed(t) && !e.SetState?
    ensures SameSets(t, Step(t, e))
  {
    match e
    case Start(skipped) => StartSameSets(t, skipped);
    case ClearNow => if t.guard.Some? { FinishSameSets(t, t.guard.value); }
    case DropGuard => if t.guard.Some? { DropSameSets(t, t.guard.value); }
    case Land(i) => if i < |t.dispatchers| { TransportSameSets(t, i, true); }
    case Return(i, ok) => if i < |t.dispatchers| { TransportSameSets(t, i, ok); }
    case LandLate(_) =>
    case _ => CommandSameSets(t, e);
  }

  /** An update of an open session becomes the pending set of the registered dispatcher. */
  lemma OpenSetIsAccepted(t: Controller, s: Session, status: string)
    requires SessionInvariant(t) && Open(t, s)
    ensures t.registered.Some?
    ensures var i, r := t.registered.value, Step(t, SetState(s, status));
            && r.registered == t.registered && |r.dispatchers| == |t.dispatchers|
            && r.dispatchers[i].board.pending == Some(Pending(s, status))
            && Pendings(r.dispatchers[i].accepted)
               == Pendings(t.dispatchers[i].accepted) + [Pending(s, status)]
            && forall j | 0 <= j < |t.dispatchers| && j != i ::
                 r.dispatchers[j] == t.dispatchers[j]
  {
    AcceptAddsPending(t.dispatchers[t.registered.value], Pending(s, status));
  }

  /** An update of any other session changes no dispatcher. */
  lemma ClosedSetIsIgnored(t: Controller, s: Session, status: string)
    requires WellFormed(t) && !Open(t, s)
    ensures SameSets(t, Step(t, SetState(s, status)))
    ensures forall j | 0 <= j < |t.dispatchers| ::
              Step(t, SetState(s, status)).dispatchers[j] == t.dispatchers[j]
  {
  }

  lemma StepAccepts(t: Controller, e: Event, i: nat)
    requires SessionInvariant(t) && i < |Step(t, e).dispatchers|
    ensures Pendings(Step(t, e).dispatchers[i].accepted)
            == Pendings(DispatcherAt(t, i).accepted) + Accepts(t, e, i)
  {
    match e
    case SetState(s, status) =>
      if Open(t, s) {
        OpenSetIsAccepted(t, s, status);
      } else {
        ClosedSetIsIgnored(t, s, status);
      }
    case _ => OthersSameSets(t, e);
  }

  // ---------------------------------------------------------------- over whole runs

  lemma {:induction false} UnregisteredAcceptNothing(events: seq<Event>, i: nat)
    requires i >= |Run(events).dispatchers|
    ensures AcceptedOn(events, i) == []
  {
    if events != [] {
      var before, e := events[..|events| - 1], events[|events| - 1];
      DispatchersStay(Run(before), e);
      UnregisteredAcceptNothing(before, i);
    }
  }

  lemma DispatchersStay(t: Controller, e: Event)
    requires WellFormed(t)
    ensures |t.dispatchers| <= |Step(t, e).dispatchers|
  {
    if BySession(e) { SessionTouches(t, e); } else { WorkerTouches(t, e); }
  }

  /**
  In every run what a dispatcher has accepted is exactly the updates made, while it was registered,
  of sessions open at the time, in order and with their texts.
  */
  lemma {:induction false} AcceptedSetsAreTheUpdates(events: seq<Event>, i: nat)
    requires i < |Run(events).dispatchers|
    ensures Pendings(Run(events).dispatchers[i].accepted) == AcceptedOn(events, i)
  {
    if events != [] {
      var before, e := events[..|events| - 1], events[|events| - 1];
      RunKeeps(before);
      if i < |Run(before).dispatchers| {
        AcceptedSetsAreTheUpdates(before, i);
      } else {
        UnregisteredAcceptNothing(before, i);
      }
      StepAccepts(Run(before), e, i);
    }
  }

  /** The text of the last update made of a session once it was started. */
  ghost function LastUpdate(events: seq<Event>, s: Session): Option<string> {
    if events == [] then None
    else
      var before, e := events[..|events| - 1], events[|events| - 1];
      if e.SetState? && e.session == s && s in Run(before).sessions then Some(e.status)
      else LastUpdate(before, s)
  }

  ghost predicate EndsWith(entries: seq<Entry>, p: Pending) {
    entries != [] && entries[|entries| - 1].pending == p
  }

  lemma {:induction false} UpdatedSessionsExist(events: seq<Event>, s: Session)
    requires LastUpdate(events, s).Some?
    ensures s in Run(events).sessions
  {
    var before, e := events[..|events| - 1], events[|events| - 1];
    RunKeeps(before);
    StepGrows(Run(before), e);
    if !(e.SetState? && e.session == s && s in Run(before).sessions) {
      UpdatedSessionsExist(before, s);
    }
  }

  /** While a session is open its dispatcher stays registered. */
  lemma OpenKeepsRegistered(t: Controller, e: Event, s: Session)
    requires Invariant(t) && Open(t, s) && Open(Step(t, e), s)
    ensures Step(t, e).registered == t.registered
  {
    assert t.guard == Some(s);
  }

  lemma AcceptedEnds(t: Controller, e: Event, s: Session, text: string)
    requires Invariant(t) && Open(t, s) && Open(Step(t, e), s) && t.registered.Some?
    requires Step(t, e).registered == t.registered
    requires t.registered.value < |Step(t, e).dispatchers|
    requires EndsWith(t.dispatchers[t.registered.value].accepted, Pending(s, text))
    requires !(e.SetState? && e.session == s)
    ensures EndsWith(Step(t, e).dispatchers[t.registered.value].accepted, Pending(s, text))
  {
    var i := t.registered.value;
    StepAccepts(t, e, i);
    assert t.guard == Some(s);
    assert forall other: Session | Open(t, other) :: t.guard == Some(other);
    var a, b := t.dispatchers[i].accepted, Step(t, e).dispatchers[i].accepted;
    assert Pendings(b) == Pendings(a);
    assert Pendings(b)[|b| - 1] == Pendings(a)[|a| - 1];
  }

  lemma {:induction false} LastUpdateIsLast(events: seq<Event>, s: Session)
    requires Open(Run(events), s) && LastUpdate(events, s).Some?
    ensures var t := Run(events);
            && t.registered.Some?
            && EndsWith(t.dispatchers[t.registered.value].accepted,
                        Pending(s, LastUpdate(events, s).value))
  {
    var before, e := events[..|events| - 1], events[|events| - 1];
    var t := Run(before);
    RunKeeps(before);
    RunKeeps(events);
    StepGrows(t, e);
    if e.SetState? && e.session == s && s in t.sessions {
      OpenSetIsAccepted(t, s, e.status);
      var accepted := Step(t, e).dispatchers[t.registered.value].accepted;
      assert Pendings(accepted)[|accepted| - 1] == Pending(s, e.status);
    } else {
      UpdatedSessionsExist(before, s);
      LastUpdateIsLast(before, s);
      OpenKeepsRegistered(t, e, s);
      DispatchersStay(t, e);
      AcceptedEnds(t, e, s, LastUpdate(before, s).value);
    }
  }

  lemma SentLast(entries: seq<Entry>)
    requires entries != [] && entries[|entries| - 1].fate == Sent
    ensures SentSets(entries) != []
    ensures SentSets(entries)[|SentSets(entries)| - 1] == entries[|entries| - 1].pending
  {
  }

  /**
  Once the registered dispatcher has drained its queue, the last transport call it began for an
  open session is that session's last update.
  */
  lemma LastUpdateIsSent(events: seq<Event>, s: Session)
    requires Open(Run(events), s) && LastUpdate(events, s).Some? && Run(events).registered.Some?
    requires var d := Run(events).dispatchers[Run(events).registered.value];
             d.queue == [] && d.phase.Resting?
    ensures var d := Run(events).dispatchers[Run(events).registered.value];
            d.begun != [] && d.begun[|d.begun| - 1] == Pending(s, LastUpdate(events, s).value)
  {
    var t := Run(events);
    var i := t.registered.value;
    var d := t.dispatchers[i];
    LastUpdateIsLast(events, s);
    CoalescingLosesNothing(events, i);
    assert Accounted(t, d, |d.accepted| - 1);
    SentLast(d.accepted);
  }
}
