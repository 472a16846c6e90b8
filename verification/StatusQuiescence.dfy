/** What every interleaving of one controller's sessions and dispatchers keeps. */
module StatusQuiescence {
  import opened MachineInts
  import opened AssistantStatus

  // ---------------------------------------------------------------- one dispatcher

  /** The session is still to be cleared here: it is live, or its clear is queued. */
  ghost predicate Owed(d: Dispatcher, live: Session, s: Session) {
    (s == live && live != 0) || Clear(s) in d.queue
  }

  ghost predicate FlushThenClear(queue: seq<Command>, s: Session) {
    exists a, b | 0 <= a < b < |queue| :: queue[a] == FlushSet && queue[b] == Clear(s)
  }

  /** The session has set something, so ending it queues a clear. */
  ghost predicate WillClear(sessions: map<Session, SessionState>, s: Session) {
    s != 0 && s in sessions && sessions[s].shouldClear
  }

  ghost predicate ClearQueued(sessions: map<Session, SessionState>, s: Session) {
    s != 0 && s in sessions && sessions[s].closed && sessions[s].terminalClearQueued
  }

  /** At most one flush is outstanding, exactly while one is scheduled, and sets wait only then. */
  ghost predicate FlushInvariant(d: Dispatcher) {
    && multiset(d.queue)[FlushSet] == (if d.board.flushScheduled then 1 else 0)
    && (d.board.pending.Some? ==> d.board.flushScheduled)
  }

  /** Everything a dispatcher may still show is owed a clear. */
  ghost predicate OwedInvariant(d: Dispatcher, live: Session, sessions: map<Session, SessionState>)
  {
    && (d.board.pending.Some? ==>
          var s := d.board.pending.value.session;
          WillClear(sessions, s) && (s == live || FlushThenClear(d.queue, s)))
    && (d.phase.Checking? ==>
          WillClear(sessions, d.phase.taken.session) && Owed(d, live, d.phase.taken.session))
    && (d.phase.Setting? ==>
          WillClear(sessions, d.phase.sent.session) && Owed(d, live, d.phase.sent.session))
    && (d.board.visible != 0 ==>
          && WillClear(sessions, d.board.visible)
          && (Owed(d, live, d.board.visible)
              || (d.phase.Clearing? && d.phase.session == d.board.visible)))
  }

  /** A clear is queued at most once, and after it is handled its session is never set again. */
  ghost predicate ClearInvariant(d: Dispatcher, live: Session, sessions: map<Session, SessionState>)
  {
    && (forall s | Clear(s) in d.queue ::
          ClearQueued(sessions, s) && s !in d.handled && multiset(d.queue)[Clear(s)] == 1)
    && (forall s | s in d.handled :: ClearQueued(sessions, s))
    && (d.board.pending.Some? ==> d.board.pending.value.session !in d.handled)
    && (d.phase.Checking? ==> d.phase.taken.session !in d.handled)
    && (d.phase.Setting? ==> d.phase.sent.session !in d.handled)
    && (d.phase.Clearing? ==>
          d.phase.session in d.handled && d.board.visible == d.phase.session)
    && (live != 0 ==> live in sessions && !sessions[live].closed && d.board.current == live)
  }

  ghost predicate Sound(d: Dispatcher, live: Session, sessions: map<Session, SessionState>) {
    && FlushInvariant(d)
    && OwedInvariant(d, live, sessions)
    && ClearInvariant(d, live, sessions)
  }

  // ---------------------------------------------------------------- its steps

  lemma AcceptSetKeeps(d: Dispatcher, live: Session, sessions: map<Session, SessionState>,
                       p: Pending)
    requires Sound(d, live, sessions) && live != 0
    requires p.session == live && WillClear(sessions, live)
    ensures Sound(AcceptSet(d, p), live, sessions)
  {
    var e := AcceptSet(d, p);
    assert forall c | c in e.queue :: c in d.queue || c == FlushSet;
  }

  /** Ending the live session: its clear goes behind everything already queued. */
  lemma QueueClearKeeps(d: Dispatcher, live: Session, sessions: map<Session, SessionState>,
                        later: map<Session, SessionState>)
    requires Sound(d, live, sessions) && live != 0
    requires !sessions[live].terminalClearQueued
    requires later == sessions[live := sessions[live].(closed := true, terminalClearQueued := true)]
    ensures Sound(QueueClear(d, live), 0, later)
  {
    var e := QueueClear(d, live);
    assert e.queue[|d.queue|] == Clear(live);
    assert Clear(live) !in d.queue;
    forall c | c in d.queue ensures c in e.queue {
      var k :| 0 <= k < |d.queue| && d.queue[k] == c;
      assert e.queue[k] == c;
    }
    if d.board.pending.Some? {
      var s := d.board.pending.value.session;
      assert FlushSet in d.queue;
      if s == live {
        var a :| 0 <= a < |d.queue| && d.queue[a] == FlushSet;
        assert e.queue[a] == FlushSet;
      } else {
        var a, b :| 0 <= a < b < |d.queue| && d.queue[a] == FlushSet && d.queue[b] == Clear(s);
        assert e.queue[a] == FlushSet && e.queue[b] == Clear(s);
      }
    }
  }

  lemma HeadCounts(queue: seq<Command>, c: Command)
    requires queue != []
    ensures multiset(queue)[c] == multiset(queue[1..])[c] + (if queue[0] == c then 1 else 0)
  {
    assert queue == [queue[0]] + queue[1..];
  }

  lemma TailCounts(queue: seq<Command>)
    requires queue != []
    ensures forall c :: multiset(queue)[c]
                        == multiset(queue[1..])[c] + (if queue[0] == c then 1 else 0)
    ensures forall c :: c in queue <==> c == queue[0] || c in queue[1..]
  {
    forall c
      ensures multiset(queue)[c] == multiset(queue[1..])[c] + (if queue[0] == c then 1 else 0)
    {
      HeadCounts(queue, c);
    }
  }

  /** A pending set of an ended session keeps its flush ahead of its clear. */
  lemma FlushThenClearSurvives(queue: seq<Command>, s: Session)
    requires FlushThenClear(queue, s)
    ensures Clear(s) in queue[1..]
    ensures queue[0] != FlushSet ==> FlushThenClear(queue[1..], s)
  {
    var a, b :| 0 <= a < b < |queue| && queue[a] == FlushSet && queue[b] == Clear(s);
    assert queue[1..][b - 1] == Clear(s);
    if queue[0] != FlushSet {
      assert queue[1..][a - 1] == FlushSet;
    }
  }

  lemma ReceiveFlushKeeps(d: Dispatcher, live: Session, sessions: map<Session, SessionState>)
    requires Sound(d, live, sessions) && d.phase.Resting? && d.queue != []
    requires d.queue[0] == FlushSet
    ensures Sound(Receive(d), live, sessions)
  {
    TailCounts(d.queue);
    if d.board.pending.Some? && d.board.pending.value.session != live {
      FlushThenClearSurvives(d.queue, d.board.pending.value.session);
    }
  }

  /** The clear at the head is the only one of its session. */
  lemma HeadClearIsLast(d: Dispatcher, live: Session, sessions: map<Session, SessionState>)
    requires ClearInvariant(d, live, sessions) && d.queue != [] && d.queue[0].Clear?
    ensures Clear(d.queue[0].session) !in d.queue[1..]
  {
    HeadCounts(d.queue, d.queue[0]);
  }

  lemma ReceiveClearOwed(d: Dispatcher, live: Session, sessions: map<Session, SessionState>)
    requires Sound(d, live, sessions) && d.phase.Resting? && d.queue != []
    requires d.queue[0].Clear?
    ensures OwedInvariant(Receive(d), live, sessions)
  {
    TailCounts(d.queue);
    if d.board.pending.Some? && d.board.pending.value.session != live {
      FlushThenClearSurvives(d.queue, d.board.pending.value.session);
    }
  }

  lemma ReceiveClearClear(d: Dispatcher, live: Session, sessions: map<Session, SessionState>)
    requires Sound(d, live, sessions) && d.phase.Resting? && d.queue != []
    requires d.queue[0].Clear?
    ensures ClearInvariant(Receive(d), live, sessions)
  {
    TailCounts(d.queue);
    HeadClearIsLast(d, live, sessions);
    if d.board.pending.Some? && d.board.pending.value.session != live {
      FlushThenClearSurvives(d.queue, d.board.pending.value.session);
    }
  }

  lemma ReceiveClearKeeps(d: Dispatcher, live: Session, sessions: map<Session, SessionState>)
    requires Sound(d, live, sessions) && d.phase.Resting? && d.queue != []
    requires d.queue[0].Clear?
    ensures Sound(Receive(d), live, sessions)
  {
    HeadCounts(d.queue, FlushSet);
    ReceiveClearOwed(d, live, sessions);
    ReceiveClearClear(d, live, sessions);
  }

  lemma CheckKeeps(d: Dispatcher, live: Session, sessions: map<Session, SessionState>)
    requires Sound(d, live, sessions) && d.phase.Checking?
    ensures Sound(Check(d), live, sessions)
  {
  }

  lemma ReturnedSetKeeps(d: Dispatcher, live: Session, sessions: map<Session, SessionState>)
    requires Sound(d, live, sessions) && d.phase.Setting?
    ensures Sound(d.(phase := Setting(d.phase.sent, true)), live, sessions)
    ensures Sound(d.(phase := Resting), live, sessions)
    ensures Sound(d.(phase := Resting, board := d.board.(visible := d.phase.sent.session)),
                  live, sessions)
  {
  }

  lemma ReturnedClearKeeps(d: Dispatcher, live: Session, sessions: map<Session, SessionState>)
    requires Sound(d, live, sessions) && d.phase.Clearing? && live != d.phase.session
    ensures Sound(d.(phase := Clearing(d.phase.session, true)), live, sessions)
    ensures Sound(d.(phase := Resting, board := Forget(d.board, d.phase.session)), live, sessions)
  {
  }

  // ---------------------------------------------------------------- one controller

  /** The session that may still set its state through the i-th dispatcher; zero if none. */
  ghost function LiveOn(t: Controller, i: nat): Session {
    if t.guard.Some? && t.registered == Some(i)
       && t.guard.value in t.sessions && !t.sessions[t.guard.value].closed
    then t.guard.value
    else 0
  }

  /** Only a session with a live guard is open, and it is current on the registered dispatcher. */
  ghost predicate SessionInvariant(t: Controller) {
    && WellFormed(t) && t.nextSession > 0
    && (forall s | s in t.sessions :: 0 < s < t.nextSession)
    && (forall s | s in t.sessions && !t.sessions[s].closed :: t.guard == Some(s))
    && (t.guard.Some? && t.sessions[t.guard.value].closed ==>
          t.sessions[t.guard.value].terminalClearQueued)
    && (t.guard.Some? && !t.sessions[t.guard.value].closed ==>
          t.registered.Some? && Registered(t).board.current == t.guard.value)
    && (forall s | s in t.sessions && t.sessions[s].terminalClearQueued :: t.sessions[s].closed)
  }

  ghost predicate DispatchersSound(t: Controller) {
    forall i | 0 <= i < |t.dispatchers| :: Sound(t.dispatchers[i], LiveOn(t, i), t.sessions)
  }

  ghost predicate Invariant(t: Controller) {
    SessionInvariant(t) && DispatchersSound(t)
  }

  // ---------------------------------------------------------------- sessions only advance

  ghost predicate Grows(sessions: map<Session, SessionState>, later: map<Session, SessionState>) {
    forall s | s in sessions ::
      && s in later
      && (sessions[s].closed ==> later[s].closed)
      && (sessions[s].terminalClearQueued ==> later[s].terminalClearQueued)
      && (sessions[s].shouldClear ==> later[s].shouldClear)
  }

  lemma SoundGrows(d: Dispatcher, live: Session, sessions: map<Session, SessionState>,
                   later: map<Session, SessionState>)
    requires Sound(d, live, sessions) && Grows(sessions, later)
    requires live != 0 ==> !later[live].closed
    ensures Sound(d, live, later)
  {
  }

  lemma ActivateKeeps(d: Dispatcher, sessions: map<Session, SessionState>, s: Session)
    requires Sound(d, 0, sessions) && s != 0 && s !in sessions
    ensures Sound(d.(board := d.board.(current := s)), s,
                  sessions[s := SessionState(false, false, false)])
  {
  }

  /** A session that never set anything leaves nothing behind. */
  lemma RetireKeeps(d: Dispatcher, live: Session, sessions: map<Session, SessionState>,
                    later: map<Session, SessionState>)
    requires Sound(d, live, sessions) && Grows(sessions, later)
    requires live != 0 ==> !sessions[live].shouldClear
    ensures Sound(d, 0, later)
    ensures Sound(d.(board := d.board.(current := 0)), 0, later)
  {
  }

  // ---------------------------------------------------------------- every event keeps it

  lemma ResolveKeeps(t: Controller)
    requires Invariant(t)
    ensures Invariant(Resolve(t))
  {
    var r := Resolve(t);
    forall i | 0 <= i < |r.dispatchers|
      ensures Sound(r.dispatchers[i], LiveOn(r, i), r.sessions)
    {
      if i < |t.dispatchers| {
        assert r.dispatchers[i] == t.dispatchers[i];
      }
    }
  }

  /** One dispatcher changes while sessions advance. */
  lemma ReplaceKeeps(t: Controller, r: Controller, i: nat, d: Dispatcher)
    requires Invariant(t) && i < |t.dispatchers| && SessionInvariant(r)
    requires r.dispatchers == t.dispatchers[i := d]
    requires Grows(t.sessions, r.sessions) && Sound(d, LiveOn(r, i), r.sessions)
    requires forall j | 0 <= j < |t.dispatchers| && j != i :: LiveOn(t, j) == 0 == LiveOn(r, j)
    ensures Invariant(r)
  {
    forall j | 0 <= j < |r.dispatchers| && j != i
      ensures Sound(r.dispatchers[j], LiveOn(r, j), r.sessions)
    {
      assert Sound(t.dispatchers[j], 0, t.sessions);
      SoundGrows(t.dispatchers[j], 0, t.sessions, r.sessions);
    }
  }

  lemma StartSessions(t: Controller, skipped: nat)
    requires SessionInvariant(t)
    ensures SessionInvariant(StartSession(t, skipped))
  {
  }

  lemma StartKeeps(t: Controller, skipped: nat)
    requires Invariant(t)
    ensures Invariant(StartSession(t, skipped))
  {
    if t.guard.None? {
      StartSessions(t, skipped);
      ResolveKeeps(t);
      var r := Resolve(t);
      var i, s := r.registered.value, t.nextSession + skipped;
      var d := r.dispatchers[i];
      assert LiveOn(r, i) == 0;
      ActivateKeeps(d, r.sessions, s);
      ReplaceKeeps(r, StartSession(t, skipped), i, d.(board := d.board.(current := s)));
    }
  }

  lemma SetSessions(t: Controller, s: Session, status: string)
    requires SessionInvariant(t)
    ensures SessionInvariant(SetSession(t, s, status))
    ensures Grows(t.sessions, SetSession(t, s, status).sessions)
  {
  }

  lemma SetClosedKeeps(t: Controller, s: Session, status: string)
    requires Invariant(t) && s in t.sessions && t.sessions[s].closed
    ensures Invariant(SetSession(t, s, status))
  {
    SetSessions(t, s, status);
    ResolveKeeps(t);
    var r, next := Resolve(t), SetSession(t, s, status);
    var i := r.registered.value;
    SoundGrows(r.dispatchers[i], LiveOn(r, i), r.sessions, next.sessions);
    ReplaceKeeps(r, next, i, r.dispatchers[i]);
  }

  lemma SetOpenKeeps(t: Controller, s: Session, status: string)
    requires Invariant(t) && s in t.sessions && !t.sessions[s].closed
    ensures Invariant(SetSession(t, s, status))
  {
    SetSessions(t, s, status);
    var next := SetSession(t, s, status);
    var i := t.registered.value;
    assert LiveOn(t, i) == s;
    SoundGrows(t.dispatchers[i], s, t.sessions, next.sessions);
    AcceptSetKeeps(t.dispatchers[i], s, next.sessions, Pending(s, status));
    ReplaceKeeps(t, next, i, AcceptSet(t.dispatchers[i], Pending(s, status)));
  }

  lemma SetKeeps(t: Controller, s: Session, status: string)
    requires Invariant(t)
    ensures Invariant(SetSession(t, s, status))
  {
    if s in t.sessions {
      if t.sessions[s].closed { SetClosedKeeps(t, s, status); } else { SetOpenKeeps(t, s, status); }
    }
  }

  lemma FinishSessions(t: Controller, dropped: Option<Session>)
    requires SessionInvariant(t) && t.guard.Some? && (dropped == t.guard || dropped == None)
    ensures SessionInvariant(Finish(t, t.guard.value).(guard := dropped))
  {
  }

  /** Finishing the session of a live guard, or of one being dropped. */
  lemma FinishKeeps(t: Controller, dropped: Option<Session>)
    requires Invariant(t) && t.guard.Some? && (dropped == t.guard || dropped == None)
    ensures Invariant(Finish(t, t.guard.value).(guard := dropped))
  {
    FinishSessions(t, dropped);
    var s := t.guard.value;
    var next := Finish(t, s).(guard := dropped);
    if t.sessions[s].terminalClearQueued {
      assert forall i | 0 <= i < |t.dispatchers| :: LiveOn(t, i) == LiveOn(next, i) == 0;
    } else {
      var i := t.registered.value;
      assert LiveOn(t, i) == s;
      QueueClearKeeps(t.dispatchers[i], s, t.sessions, next.sessions);
      ReplaceKeeps(t, next, i, QueueClear(t.dispatchers[i], s));
    }
  }

  lemma RetireSessions(t: Controller)
    requires SessionInvariant(t) && t.guard.Some? && !t.sessions[t.guard.value].shouldClear
    ensures SessionInvariant(Drop(t, t.guard.value))
    ensures Drop(t, t.guard.value).guard.None?
    ensures Grows(t.sessions, Drop(t, t.guard.value).sessions)
  {
  }

  lemma DropSilentKeeps(t: Controller)
    requires Invariant(t) && t.guard.Some? && !t.sessions[t.guard.value].shouldClear
    ensures Invariant(Drop(t, t.guard.value))
  {
    RetireSessions(t);
    ResolveKeeps(t);
    var s := t.guard.value;
    var r, next := Resolve(t), Drop(t, s);
    var i := r.registered.value;
    var d := r.dispatchers[i];
    assert Resolve(t.(guard := None)) == r.(guard := None);
    RetireKeeps(d, LiveOn(r, i), r.sessions, next.sessions);
    ReplaceKeeps(r, next, i,
                 if d.board.current == s then d.(board := d.board.(current := 0)) else d);
  }

  lemma DropKeeps(t: Controller)
    requires Invariant(t) && t.guard.Some?
    ensures Invariant(Drop(t, t.guard.value))
  {
    if t.sessions[t.guard.value].shouldClear {
      FinishKeeps(t, None);
      assert Finish(t.(guard := None), t.guard.value) == Finish(t, t.guard.value).(guard := None);
    } else {
      DropSilentKeeps(t);
    }
  }

  /** A step of one dispatcher's worker. */
  lemma WorkerKeeps(t: Controller, r: Controller, i: nat)
    requires Invariant(t) && i < |t.dispatchers| == |r.dispatchers|
    requires r.sessions == t.sessions && r.dispatchers == t.dispatchers[i := r.dispatchers[i]]
    requires Sound(r.dispatchers[i], LiveOn(t, i), t.sessions)
    requires SessionInvariant(r)
    requires forall j | 0 <= j < |t.dispatchers| :: LiveOn(r, j) == LiveOn(t, j)
    ensures Invariant(r)
  {
    forall j | 0 <= j < |r.dispatchers| ensures Sound(r.dispatchers[j], LiveOn(r, j), r.sessions) {
      assert Sound(t.dispatchers[j], LiveOn(t, j), t.sessions);
    }
  }

  lemma DeliverKeeps(t: Controller, i: nat)
    requires Invariant(t)
    ensures Invariant(Step(t, Deliver(i)))
  {
    var r := Step(t, Deliver(i));
    if r != t {
      var d := t.dispatchers[i];
      if d.queue[0].FlushSet? {
        ReceiveFlushKeeps(d, LiveOn(t, i), t.sessions);
      } else {
        ReceiveClearKeeps(d, LiveOn(t, i), t.sessions);
      }
      WorkerKeeps(t, r, i);
    }
  }

  lemma ConfirmKeeps(t: Controller, i: nat)
    requires Invariant(t)
    ensures Invariant(Step(t, Confirm(i)))
  {
    var r := Step(t, Confirm(i));
    if r != t {
      CheckKeeps(t.dispatchers[i], LiveOn(t, i), t.sessions);
      WorkerKeeps(t, r, i);
    }
  }

  /** The session being cleared is closed, so it is not the live one. */
  lemma ClearedIsNotLive(t: Controller, i: nat)
    requires Invariant(t) && i < |t.dispatchers| && t.dispatchers[i].phase.Clearing?
    ensures LiveOn(t, i) != t.dispatchers[i].phase.session
  {
    assert Sound(t.dispatchers[i], LiveOn(t, i), t.sessions);
  }

  lemma LandKeeps(t: Controller, i: nat)
    requires Invariant(t)
    ensures Invariant(Step(t, Land(i)))
  {
    var r := Step(t, Land(i));
    if r != t {
      if t.dispatchers[i].phase.Setting? {
        ReturnedSetKeeps(t.dispatchers[i], LiveOn(t, i), t.sessions);
      } else {
        ClearedIsNotLive(t, i);
        ReturnedClearKeeps(t.dispatchers[i], LiveOn(t, i), t.sessions);
      }
      WorkerKeeps(t, r, i);
    }
  }

  lemma ReturnSetKeeps(t: Controller, i: nat, ok: bool)
    requires Invariant(t) && i < |t.dispatchers| && t.dispatchers[i].phase.Setting?
    ensures Invariant(ReturnSet(t, i, ok))
  {
    var r := ReturnSet(t, i, ok);
    if r != t {
      ReturnedSetKeeps(t.dispatchers[i], LiveOn(t, i), t.sessions);
      WorkerKeeps(t, r, i);
    }
  }

  lemma ReturnClearKeeps(t: Controller, i: nat)
    requires Invariant(t) && i < |t.dispatchers| && t.dispatchers[i].phase.Clearing?
    ensures Invariant(ReturnClear(t, i))
  {
    var r := ReturnClear(t, i);
    if r != t {
      ClearedIsNotLive(t, i);
      ReturnedClearKeeps(t.dispatchers[i], LiveOn(t, i), t.sessions);
      WorkerKeeps(t, r, i);
    }
  }

  lemma LandLateKeeps(t: Controller, k: nat)
    requires Invariant(t) && k < |t.strays|
    ensures Invariant(LandStray(t, k))
  {
    var r := LandStray(t, k);
    assert forall j | 0 <= j < |r.strays| :: r.strays[j] in t.strays;
    forall i | 0 <= i < |r.dispatchers|
      ensures Sound(r.dispatchers[i], LiveOn(r, i), r.sessions)
    {
      assert Sound(t.dispatchers[i], LiveOn(t, i), t.sessions);
    }
  }

  lemma StepKeeps(t: Controller, e: Event)
    requires Invariant(t)
    ensures Invariant(Step(t, e))
  {
    match e
    case Start(skipped) => StartKeeps(t, skipped);
    case SetState(s, status) => SetKeeps(t, s, status);
    case ClearNow =>
      if t.guard.Some? {
        FinishKeeps(t, t.guard);
        assert Finish(t, t.guard.value).(guard := t.guard) == Finish(t, t.guard.value);
      }
    case DropGuard => if t.guard.Some? { DropKeeps(t); }
    case Deliver(i) => DeliverKeeps(t, i);
    case Confirm(i) => ConfirmKeeps(t, i);
    case Land(i) => LandKeeps(t, i);
    case Return(i, ok) =>
      if i < |t.dispatchers| {
        if t.dispatchers[i].phase.Setting? {
          ReturnSetKeeps(t, i, ok);
        } else if t.dispatchers[i].phase.Clearing? {
          ReturnClearKeeps(t, i);
        }
      }
    case LandLate(k) => if k < |t.strays| { LandLateKeeps(t, k); }
  }

  // ---------------------------------------------------------------- the log of accepted sets

  /** The sets whose transport call was begun, in the order in which they were accepted. */
  function SentSets(entries: seq<Entry>): seq<Pending> {
    if entries == [] then []
    else
      var last := entries[|entries| - 1];
      SentSets(entries[..|entries| - 1]) + if last.fate == Sent then [last.pending] else []
  }

  /** The entries not yet decided are the pending set and, behind everything sent, the taken one. */
  ghost predicate FatesInvariant(d: Dispatcher) {
    && (forall k | 0 <= k < |d.accepted| && d.accepted[k].fate == Waiting ::
          k == |d.accepted| - 1 && d.board.pending == Some(d.accepted[k].pending))
    && (d.board.pending.Some? ==>
          d.accepted != [] && d.accepted[|d.accepted| - 1].fate == Waiting)
    && (forall k | 0 <= k < |d.accepted| && d.accepted[k].fate == Taken ::
          d.phase.Checking? && d.phase.taken == d.accepted[k].pending)
    && (forall j, k | 0 <= j < k < |d.accepted| && d.accepted[j].fate == Taken ::
          d.accepted[k].fate == Waiting || d.accepted[k].fate == Replaced)
    && (d.phase.Checking? ==> exists k | 0 <= k < |d.accepted| :: d.accepted[k].fate == Taken)
    && (forall k | 0 <= k < |d.accepted| && d.accepted[k].fate == Replaced :: k < |d.accepted| - 1)
    && (forall k | 0 <= k < |d.accepted| && d.accepted[k].fate.Stale? ::
          d.accepted[k].fate.current != d.accepted[k].pending.session)
  }

  ghost predicate LogInvariant(d: Dispatcher) {
    FatesInvariant(d) && d.begun == SentSets(d.accepted)
  }

  /** Entries that are not sent, and do not become so, leave the sent sets alone. */
  lemma {:induction false} MarkKeepsSent(entries: seq<Entry>, from: Fate, to: Fate)
    requires from != Sent && to != Sent
    ensures SentSets(Mark(entries, from, to)) == SentSets(entries)
  {
    if entries != [] {
      var marked := Mark(entries, from, to);
      MarkKeepsSent(entries[..|entries| - 1], from, to);
      assert marked[..|entries| - 1] == Mark(entries[..|entries| - 1], from, to);
    }
  }

  lemma AppendKeepsSent(entries: seq<Entry>, e: Entry)
    requires e.fate != Sent
    ensures SentSets(entries + [e]) == SentSets(entries)
  {
    assert (entries + [e])[..|entries|] == entries;
  }

  /** The one taken entry, with nothing sent behind it, becomes the last sent one. */
  lemma {:induction false} MarkSends(entries: seq<Entry>, k: nat)
    requires k < |entries| && entries[k].fate == Taken
    requires forall j | 0 <= j < k :: entries[j].fate != Taken
    requires forall j | k < j < |entries| ::
               entries[j].fate == Waiting || entries[j].fate == Replaced
    ensures SentSets(Mark(entries, Taken, Sent)) == SentSets(entries) + [entries[k].pending]
  {
    var n := |entries| - 1;
    var marked, before := Mark(entries, Taken, Sent), entries[..n];
    assert marked[..n] == Mark(before, Taken, Sent);
    if k < n {
      MarkSends(before, k);
    } else {
      assert Mark(before, Taken, Sent) == before;
    }
  }

  lemma AcceptKeepsSent(entries: seq<Entry>, p: Pending)
    ensures SentSets(Mark(entries, Waiting, Replaced) + [Entry(p, Waiting)]) == SentSets(entries)
  {
    MarkKeepsSent(entries, Waiting, Replaced);
    AppendKeepsSent(Mark(entries, Waiting, Replaced), Entry(p, Waiting));
  }

  lemma AcceptFates(d: Dispatcher, p: Pending)
    requires FatesInvariant(d) && d.board.current == p.session
    ensures FatesInvariant(AcceptSet(d, p))
  {
    var e, n := AcceptSet(d, p), |d.accepted|;
    assert e.accepted[n] == Entry(p, Waiting);
    assert forall k | 0 <= k < n :: e.accepted[k] == Marked(d.accepted[k], Waiting, Replaced);
    if d.phase.Checking? {
      var k :| 0 <= k < n && d.accepted[k].fate == Taken;
      assert e.accepted[k].fate == Taken;
    }
  }

  lemma ReceiveFlushLog(d: Dispatcher)
    requires LogInvariant(d) && d.phase.Resting? && d.queue != [] && d.queue[0] == FlushSet
    ensures LogInvariant(Receive(d))
  {
    MarkKeepsSent(d.accepted, Waiting, Taken);
    if d.board.pending.Some? {
      assert Receive(d).accepted[|d.accepted| - 1].fate == Taken;
    }
  }

  lemma CheckSends(d: Dispatcher)
    requires LogInvariant(d) && d.phase.Checking?
    ensures Check(d).begun == SentSets(Check(d).accepted)
  {
    var k :| 0 <= k < |d.accepted| && d.accepted[k].fate == Taken;
    if d.board.current == d.phase.taken.session {
      MarkSends(d.accepted, k);
    } else {
      MarkKeepsSent(d.accepted, Taken, Stale(d.board.current));
    }
  }

  lemma CheckLog(d: Dispatcher)
    requires LogInvariant(d) && d.phase.Checking?
    ensures LogInvariant(Check(d))
  {
    CheckSends(d);
    var to := if d.board.current == d.phase.taken.session then Sent else Stale(d.board.current);
    var e := Check(d);
    assert forall k | 0 <= k < |d.accepted| :: e.accepted[k] == Marked(d.accepted[k], Taken, to);
  }

  /** The log, and all it speaks about, is the same. */
  ghost predicate SameLog(d: Dispatcher, e: Dispatcher) {
    && e.accepted == d.accepted && e.begun == d.begun && e.board.pending == d.board.pending
    && (e.phase == d.phase || (!d.phase.Checking? && !e.phase.Checking?))
  }

  ghost predicate LogStep(d: Dispatcher, e: Dispatcher) {
    || SameLog(d, e)
    || (e.board.pending.Some? && e == AcceptSet(d, e.board.pending.value))
    || (d.phase.Resting? && d.queue != [] && e == Receive(d))
    || (d.phase.Checking? && e == Check(d))
  }

  lemma LogStepKeeps(d: Dispatcher, e: Dispatcher)
    requires LogInvariant(d) && LogStep(d, e)
    ensures LogInvariant(e)
  {
    if SameLog(d, e) {
    } else if e.board.pending.Some? && e == AcceptSet(d, e.board.pending.value) {
      if d.board.current == e.board.pending.value.session {
        AcceptFates(d, e.board.pending.value);
        AcceptKeepsSent(d.accepted, e.board.pending.value);
      }
    } else if d.phase.Checking? {
      CheckLog(d);
    } else if d.queue[0] == FlushSet {
      ReceiveFlushLog(d);
    }
  }

  // ---------------------------------------------------------------- what a session can touch

  /** The i-th dispatcher, or the fresh one that takes its place. */
  function DispatcherAt(t: Controller, i: nat): Dispatcher {
    if i < |t.dispatchers| then t.dispatchers[i] else NEW_DISPATCHER
  }

  /** A session's calls leave the worker and the display of every dispatcher alone. */
  ghost predicate TouchesOnlyQueues(t: Controller, r: Controller) {
    && |t.dispatchers| <= |r.dispatchers|
    && r.landed == t.landed && r.strays == t.strays
    && forall i | 0 <= i < |r.dispatchers| ::
         && r.dispatchers[i].phase == DispatcherAt(t, i).phase
         && r.dispatchers[i].board.visible == DispatcherAt(t, i).board.visible
         && LogStep(DispatcherAt(t, i), r.dispatchers[i])
  }

  lemma StartTouches(t: Controller, skipped: nat)
    requires WellFormed(t)
    ensures TouchesOnlyQueues(t, StartSession(t, skipped))
  {
  }

  lemma SetTouches(t: Controller, s: Session, status: string)
    requires WellFormed(t)
    ensures TouchesOnlyQueues(t, SetSession(t, s, status))
  {
    if s in t.sessions {
      var r := Resolve(t);
      var i := r.registered.value;
      var d, p := r.dispatchers[i], Pending(s, status);
      assert LogStep(d, AcceptSet(d, p));
    }
  }

  lemma FinishTouches(t: Controller, s: Session)
    requires WellFormed(t) && s in t.sessions
    ensures TouchesOnlyQueues(t, Finish(t, s))
  {
  }

  lemma DropTouches(t: Controller, s: Session)
    requires WellFormed(t) && s in t.sessions
    ensures TouchesOnlyQueues(t, Drop(t, s))
  {
    if t.sessions[s].shouldClear {
      FinishTouches(t.(guard := None), s);
    }
  }

  predicate BySession(e: Event) {
    e.Start? || e.SetState? || e.ClearNow? || e.DropGuard?
  }

  lemma SessionTouches(t: Controller, e: Event)
    requires WellFormed(t) && BySession(e)
    ensures TouchesOnlyQueues(t, Step(t, e))
  {
    match e
    case Start(skipped) => StartTouches(t, skipped);
    case SetState(s, status) => SetTouches(t, s, status);
    case ClearNow => if t.guard.Some? { FinishTouches(t, t.guard.value); }
    case DropGuard => if t.guard.Some? { DropTouches(t, t.guard.value); }
  }

  /** One dispatcher changes, or none. */
  ghost predicate TouchesOne(t: Controller, r: Controller, i: nat) {
    && |r.dispatchers| == |t.dispatchers|
    && forall j | 0 <= j < |t.dispatchers| ::
         if j == i then LogStep(t.dispatchers[j], r.dispatchers[j])
         else r.dispatchers[j] == t.dispatchers[j]
  }

  lemma CommandTouches(t: Controller, e: Event)
    requires WellFormed(t) && (e.Deliver? || e.Confirm?)
    ensures TouchesOne(t, Step(t, e), e.dispatcher)
  {
  }

  lemma LandTouches(t: Controller, i: nat)
    requires i < |t.dispatchers|
    ensures TouchesOne(t, LandCall(t, i), i)
  {
  }

  lemma ReturnSetTouches(t: Controller, i: nat, ok: bool)
    requires i < |t.dispatchers| && t.dispatchers[i].phase.Setting?
    ensures TouchesOne(t, ReturnSet(t, i, ok), i)
  {
  }

  lemma ReturnClearTouches(t: Controller, i: nat)
    requires i < |t.dispatchers| && t.dispatchers[i].phase.Clearing?
    ensures TouchesOne(t, ReturnClear(t, i), i)
  {
  }

  /** A worker's step, a landing or an answer changes at most the dispatcher it names. */
  lemma WorkerTouches(t: Controller, e: Event)
    requires WellFormed(t) && !BySession(e)
    ensures TouchesOne(t, Step(t, e), if e.LandLate? then |t.dispatchers| else e.dispatcher)
  {
    match e
    case LandLate(_) =>
    case Land(i) => if i < |t.dispatchers| { LandTouches(t, i); }
    case Return(i, ok) =>
      if i < |t.dispatchers| && t.dispatchers[i].phase.Setting? {
        ReturnSetTouches(t, i, ok);
      } else if i < |t.dispatchers| && t.dispatchers[i].phase.Clearing? {
        ReturnClearTouches(t, i);
      }
    case _ => CommandTouches(t, e);
  }

  ghost predicate LogsSound(t: Controller) {
    forall i | 0 <= i < |t.dispatchers| :: LogInvariant(t.dispatchers[i])
  }

  lemma LogsKeep(t: Controller, e: Event)
    requires WellFormed(t) && LogsSound(t)
    ensures LogsSound(Step(t, e))
  {
    var r := Step(t, e);
    if BySession(e) {
      SessionTouches(t, e);
    } else {
      WorkerTouches(t, e);
    }
    forall i | 0 <= i < |r.dispatchers| ensures LogInvariant(r.dispatchers[i]) {
      assert LogStep(DispatcherAt(t, i), r.dispatchers[i]);
      LogStepKeeps(DispatcherAt(t, i), r.dispatchers[i]);
    }
  }

  // ---------------------------------------------------------------- why sets are dropped

  ghost predicate Ended(sessions: map<Session, SessionState>, s: Session) {
    s in sessions && sessions[s].closed
  }

  ghost predicate StaleEnded(sessions: map<Session, SessionState>, d: Dispatcher) {
    forall k | 0 <= k < |d.accepted| && d.accepted[k].fate.Stale? ::
      Ended(sessions, d.accepted[k].pending.session)
  }

  ghost predicate StaleInvariant(t: Controller) {
    forall i | 0 <= i < |t.dispatchers| :: StaleEnded(t.sessions, t.dispatchers[i])
  }

  /** Only a check makes a set stale, and then it is the one that was taken. */
  lemma NewlyStale(d: Dispatcher, e: Dispatcher, k: nat)
    requires LogInvariant(d) && LogStep(d, e) && k < |e.accepted| && e.accepted[k].fate.Stale?
    ensures || (k < |d.accepted| && d.accepted[k] == e.accepted[k])
            || (&& d.phase.Checking? && d.board.current != d.phase.taken.session
                && e.accepted[k].pending == d.phase.taken)
  {
  }

  /** A taken set whose session is no longer current belongs to a session that has ended. */
  lemma TakenHasEnded(d: Dispatcher, live: Session, sessions: map<Session, SessionState>)
    requires Sound(d, live, sessions) && d.phase.Checking?
    requires d.board.current != d.phase.taken.session
    ensures Ended(sessions, d.phase.taken.session)
  {
  }

  lemma StartGrows(t: Controller, skipped: nat)
    requires SessionInvariant(t)
    ensures Grows(t.sessions, StartSession(t, skipped).sessions)
  {
  }

  lemma FinishGrows(t: Controller, s: Session)
    requires WellFormed(t) && s in t.sessions
    ensures Grows(t.sessions, Finish(t, s).sessions)
  {
  }

  lemma DropGrows(t: Controller, s: Session)
    requires WellFormed(t) && s in t.sessions
    ensures Grows(t.sessions, Drop(t, s).sessions)
  {
    if t.sessions[s].shouldClear {
      FinishGrows(t.(guard := None), s);
    }
  }

  lemma WorkerKeepsSessions(t: Controller, e: Event)
    requires WellFormed(t) && !BySession(e)
    ensures Step(t, e).sessions == t.sessions
  {
  }

  lemma StepGrows(t: Controller, e: Event)
    requires SessionInvariant(t)
    ensures Grows(t.sessions, Step(t, e).sessions)
  {
    match e
    case Start(skipped) => StartGrows(t, skipped);
    case SetState(s, status) => SetSessions(t, s, status);
    case ClearNow => if t.guard.Some? { FinishGrows(t, t.guard.value); }
    case DropGuard => if t.guard.Some? { DropGrows(t, t.guard.value); }
    case _ => WorkerKeepsSessions(t, e);
  }

  lemma StaleKeeps(t: Controller, e: Event)
    requires Invariant(t) && LogsSound(t) && StaleInvariant(t)
    ensures StaleInvariant(Step(t, e))
  {
    var r := Step(t, e);
    StepGrows(t, e);
    if BySession(e) {
      SessionTouches(t, e);
    } else {
      WorkerTouches(t, e);
    }
    forall i | 0 <= i < |r.dispatchers| ensures StaleEnded(r.sessions, r.dispatchers[i]) {
      StaleKeepsOne(t, r, i);
    }
  }

  lemma StaleKeepsOne(t: Controller, r: Controller, i: nat)
    requires DispatchersSound(t) && LogsSound(t) && StaleInvariant(t)
    requires Grows(t.sessions, r.sessions) && i < |r.dispatchers|
    requires LogStep(DispatcherAt(t, i), r.dispatchers[i])
    ensures StaleEnded(r.sessions, r.dispatchers[i])
  {
    var d, e := DispatcherAt(t, i), r.dispatchers[i];
    forall k | 0 <= k < |e.accepted| && e.accepted[k].fate.Stale?
      ensures Ended(r.sessions, e.accepted[k].pending.session)
    {
      NewlyStale(d, e, k);
      if d.phase.Checking? && d.board.current != d.phase.taken.session {
        TakenHasEnded(d, LiveOn(t, i), t.sessions);
      }
    }
  }

  // ---------------------------------------------------------------- what Slack shows

  /** Unless it is forgotten, a landed set is in flight or has a clear left to land after it. */
  ghost predicate Followed(t: Controller, last: Landing) {
    last.LandedSet? ==>
      && last.dispatcher < |t.dispatchers|
      && var d := t.dispatchers[last.dispatcher];
         match last.answer
         case InFlight =>
           d.phase.Setting? && d.phase.landed && d.phase.sent.session == last.session
         case Acknowledged => HasClearLeft(d)
         case Failed(forgotten) => forgotten || HasClearLeft(d)
  }

  /** What the controller's last landed call left on display is taken care of. */
  ghost predicate ShownInvariant(t: Controller) {
    t.landed != [] ==> Followed(t, t.landed[|t.landed| - 1])
  }

  lemma SessionKeepsShown(t: Controller, r: Controller)
    requires ShownInvariant(t) && TouchesOnlyQueues(t, r)
    ensures ShownInvariant(r)
  {
    if t.landed != [] && t.landed[|t.landed| - 1].LandedSet? {
      var i := t.landed[|t.landed| - 1].dispatcher;
      assert DispatcherAt(t, i) == t.dispatchers[i];
    }
  }

  /** Taking and checking a command lands and answers nothing. */
  lemma CommandKeepsShown(t: Controller, e: Event)
    requires Invariant(t) && ShownInvariant(t) && (e.Deliver? || e.Confirm?)
    ensures ShownInvariant(Step(t, e))
  {
  }

  lemma LandKeepsShown(t: Controller, i: nat)
    requires Invariant(t) && ShownInvariant(t) && i < |t.dispatchers|
    ensures ShownInvariant(LandCall(t, i))
  {
  }

  /** Answering a call settles the last landing if it is that call's, and no other. */
  lemma SettleLast(t: Controller, i: nat, answer: Answer)
    requires t.landed != []
    ensures var last, settled := t.landed[|t.landed| - 1], Settle(t.landed, i, answer);
            && |settled| == |t.landed|
            && settled[|settled| - 1] ==
               if last.LandedSet? && last.dispatcher == i && last.answer.InFlight?
               then last.(answer := answer) else last
  {
  }

  lemma ReturnSetKeepsShown(t: Controller, i: nat, ok: bool)
    requires Invariant(t) && ShownInvariant(t)
    requires i < |t.dispatchers| && t.dispatchers[i].phase.Setting?
    ensures ShownInvariant(ReturnSet(t, i, ok))
  {
    var d := t.dispatchers[i];
    assert Sound(d, LiveOn(t, i), t.sessions);
    assert d.phase.sent.session != 0;
    if t.landed != [] {
      SettleLast(t, i, Acknowledged);
      SettleLast(t, i, Failed(!HasClearLeft(d)));
    }
  }

  lemma ReturnClearKeepsShown(t: Controller, i: nat)
    requires Invariant(t) && ShownInvariant(t)
    requires i < |t.dispatchers| && t.dispatchers[i].phase.Clearing?
    ensures ShownInvariant(ReturnClear(t, i))
  {
  }

  lemma ShownKeeps(t: Controller, e: Event)
    requires Invariant(t) && ShownInvariant(t)
    ensures ShownInvariant(Step(t, e))
  {
    match e
    case Land(i) => if i < |t.dispatchers| { LandKeepsShown(t, i); }
    case Return(i, ok) =>
      if i < |t.dispatchers| {
        if t.dispatchers[i].phase.Setting? {
          ReturnSetKeepsShown(t, i, ok);
        } else if t.dispatchers[i].phase.Clearing? {
          ReturnClearKeepsShown(t, i);
        }
      }
    case LandLate(k) =>
    case Deliver(_) => CommandKeepsShown(t, e);
    case Confirm(_) => CommandKeepsShown(t, e);
    case _ =>
      SessionTouches(t, e);
      SessionKeepsShown(t, Step(t, e));
  }

  // ---------------------------------------------------------------- over whole runs

  lemma SessionStepIsWellFormed(t: Controller, e: Event)
    requires WellFormed(t) && BySession(e)
    ensures WellFormed(Step(t, e))
  {
  }

  lemma StepIsWellFormed(t: Controller, e: Event)
    requires WellFormed(t)
    ensures WellFormed(Step(t, e))
  {
    if BySession(e) {
      SessionStepIsWellFormed(t, e);
    } else {
      WorkerTouches(t, e);
    }
  }

  /** The controller after any sequence of events. */
  ghost function Run(events: seq<Event>): (t: Controller)
    ensures WellFormed(t)
  {
    if events == [] then INITIAL
    else
      var before := Run(events[..|events| - 1]);
      StepIsWellFormed(before, events[|events| - 1]);
      Step(before, events[|events| - 1])
  }

  lemma {:induction false} RunKeeps(events: seq<Event>)
    ensures var t := Run(events);
            Invariant(t) && ShownInvariant(t) && LogsSound(t) && StaleInvariant(t)
  {
    if events != [] {
      var t, e := Run(events[..|events| - 1]), events[|events| - 1];
      RunKeeps(events[..|events| - 1]);
      StepKeeps(t, e);
      ShownKeeps(t, e);
      LogsKeep(t, e);
      StaleKeeps(t, e);
    }
  }

  /** No session is open, no command is queued and no worker is at work. */
  ghost predicate Drained(t: Controller) {
    && (forall s | s in t.sessions :: t.sessions[s].closed)
    && (forall i | 0 <= i < |t.dispatchers| ::
          t.dispatchers[i].queue == [] && t.dispatchers[i].phase.Resting?)
  }

  /** The last call to take effect was a set that failed, with no clear left behind it. */
  predicate EndsForgotten(landed: seq<Landing>) {
    landed != [] && var last := landed[|landed| - 1]; last.LandedSet? && last.answer == Failed(true)
  }

  /** Nothing is left to clear on a drained controller. */
  lemma DrainedIsClear(t: Controller, i: nat)
    requires Invariant(t) && Drained(t) && i < |t.dispatchers|
    ensures !HasClearLeft(t.dispatchers[i]) && !t.dispatchers[i].phase.Setting?
  {
    assert Sound(t.dispatchers[i], LiveOn(t, i), t.sessions);
  }

  /** A call that left a status on display was a set. */
  predicate EndsWithSet(landed: seq<Landing>) {
    landed != [] && landed[|landed| - 1].LandedSet?
  }

  /** On a drained controller only a forgotten set can be the last call to take effect. */
  lemma DrainedShows(t: Controller)
    requires Invariant(t) && ShownInvariant(t) && Drained(t)
    ensures EndsWithSet(t.landed) <==> EndsForgotten(t.landed)
  {
    if EndsWithSet(t.landed) {
      DrainedIsClear(t, t.landed[|t.landed| - 1].dispatcher);
    }
  }

  lemma RunExtends(events: seq<Event>, e: Event)
    ensures Run(events + [e]) == Step(Run(events), e)
  {
    assert (events + [e])[..|events|] == events;
  }

  const THINKING: Pending := Pending(1, "thinking")

  /** One open session, one dispatcher with an empty queue, and nothing visible or waiting. */
  ghost predicate Scene(t: Controller, phase: Phase, landed: seq<Landing>) {
    && t.sessions == map[1 := SessionState(false, false, true)] && t.guard == Some(1)
    && |t.dispatchers| == 1 && t.registered == Some(0) && t.strays == [] && t.landed == landed
    && t.dispatchers[0].board == Board(1, 0, None, false)
    && t.dispatchers[0].queue == [] && t.dispatchers[0].phase == phase
  }

  lemma SceneOpens() returns (events: seq<Event>)
    ensures Scene(Run(events), Checking(THINKING), [])
  {
    RunExtends([], Start(0));
    assert [] + [Start(0)] == [Start(0)];
    RunExtends([Start(0)], SetState(1, "thinking"));
    events := [Start(0)] + [SetState(1, "thinking")];
    assert Run(events).dispatchers[0].queue == [FlushSet];
    RunExtends(events, Deliver(0));
    events := events + [Deliver(0)];
  }

  lemma SceneGoesOn(t: Controller)
    ensures Scene(t, Checking(THINKING), []) ==>
              Scene(Step(t, Confirm(0)), Setting(THINKING, false), [])
    ensures Scene(t, Setting(THINKING, false), []) ==>
              Scene(Step(t, Land(0)), Setting(THINKING, true), [LandedSet(0, 1, InFlight)])
    ensures Scene(t, Setting(THINKING, true), [LandedSet(0, 1, InFlight)]) ==>
              Scene(Step(t, Return(0, false)), Resting, [LandedSet(0, 1, Failed(true))])
  {
    assert Settle([LandedSet(0, 1, InFlight)], 0, Failed(true)) == [LandedSet(0, 1, Failed(true))];
  }

  lemma SceneEnds(t: Controller)
    requires WellFormed(t) && Scene(t, Resting, [LandedSet(0, 1, Failed(true))])
    ensures var r := Step(Step(t, DropGuard), Deliver(0));
            Drained(r) && r.landed == [LandedSet(0, 1, Failed(true))]
  {
    assert Step(t, DropGuard).dispatchers[0].queue == [Clear(1)];
  }

  lemma SceneReturns() returns (events: seq<Event>)
    ensures Scene(Run(events), Resting, [LandedSet(0, 1, Failed(true))])
  {
    events := SceneOpens();
    SceneGoesOn(Run(events));
    RunExtends(events, Confirm(0));
    events := events + [Confirm(0)];
    SceneGoesOn(Run(events));
    RunExtends(events, Land(0));
    events := events + [Land(0)];
    SceneGoesOn(Run(events));
    RunExtends(events, Return(0, false));
    events := events + [Return(0, false)];
  }

  /**
  A set that reaches Slack and then returns an error is not remembered, so its session's clear
  does nothing and the set remains the last call to take effect.
  */
  lemma FailedSetIsForgotten() returns (events: seq<Event>)
    ensures Drained(Run(events)) && Run(events).landed == [LandedSet(0, 1, Failed(true))]
  {
    events := SceneReturns();
    SceneEnds(Run(events));
    RunExtends(events, DropGuard);
    events := events + [DropGuard];
    RunExtends(events, Deliver(0));
    events := events + [Deliver(0)];
  }

  /** After a dispatcher handled a session's clear it neither holds nor sends a set of it. */
  lemma ClearedSessionsStayCleared(events: seq<Event>, i: nat, s: Session)
    requires i < |Run(events).dispatchers| && s in Run(events).dispatchers[i].handled
    ensures var d := Run(events).dispatchers[i];
            && (d.phase.Setting? ==> d.phase.sent.session != s)
            && (d.phase.Checking? ==> d.phase.taken.session != s)
            && (d.board.pending.Some? ==> d.board.pending.value.session != s)
  {
    var t := Run(events);
    RunKeeps(events);
    assert Sound(t.dispatchers[i], LiveOn(t, i), t.sessions);
  }

  /** A dispatcher begins to send only the set it took, while that set's session is current. */
  lemma SetsAreCurrentWhenSent(events: seq<Event>, t: Controller, e: Event, i: nat)
    requires t == Run(events) && i < |t.dispatchers| && !t.dispatchers[i].phase.Setting?
    requires var r := Step(t, e); i < |r.dispatchers| && r.dispatchers[i].phase.Setting?
    ensures var d := t.dispatchers[i];
            && d.phase == Checking(Step(t, e).dispatchers[i].phase.sent)
            && d.board.current == d.phase.taken.session
            && d.phase.taken.session !in d.handled
  {
    RunKeeps(events);
    assert Sound(t.dispatchers[i], LiveOn(t, i), t.sessions);
    assert DispatcherAt(t, i) == t.dispatchers[i];
    if BySession(e) {
      SessionTouches(t, e);
    } else {
      WorkerTouches(t, e);
    }
  }

  /** What became of an accepted set. A stale one was dropped because its session had ended. */
  ghost predicate Accounted(t: Controller, d: Dispatcher, k: nat)
    requires k < |d.accepted|
  {
    var p := d.accepted[k].pending;
    match d.accepted[k].fate
    case Waiting => k == |d.accepted| - 1 && d.board.pending == Some(p)
    case Taken => d.phase == Checking(p)
    case Replaced => k < |d.accepted| - 1
    case Sent => p in d.begun
    case Stale(current) => current != p.session && Ended(t.sessions, p.session)
  }

  /**
  Coalescing loses nothing: at most one flush is outstanding, a set waits only while one is, every
  accepted set is the pending one, the one just taken, or was replaced by a later set, sent, or
  dropped because another session or none was current when it was checked, its own having ended;
  and the transport calls begun are exactly the sent ones, in the order in which they were accepted.
  */
  lemma CoalescingLosesNothing(events: seq<Event>, i: nat)
    requires i < |Run(events).dispatchers|
    ensures var t := Run(events);
            var d := t.dispatchers[i];
            && multiset(d.queue)[FlushSet] <= 1
            && (d.board.pending.Some? ==> FlushSet in d.queue)
            && d.begun == SentSets(d.accepted)
            && forall k | 0 <= k < |d.accepted| :: Accounted(t, d, k)
    ensures var d := Run(events).dispatchers[i];
            d.queue == [] && d.phase.Resting? ==>
              forall k | 0 <= k < |d.accepted| ::
                d.accepted[k].fate != Waiting && d.accepted[k].fate != Taken
  {
    var t := Run(events);
    var d := t.dispatchers[i];
    RunKeeps(events);
    assert Sound(d, LiveOn(t, i), t.sessions);
    forall k | 0 <= k < |d.accepted| ensures Accounted(t, d, k) {
      if d.accepted[k].fate == Sent {
        SentIsListed(d.accepted, k);
      }
    }
  }

  lemma {:induction false} SentIsListed(entries: seq<Entry>, k: nat)
    requires k < |entries| && entries[k].fate == Sent
    ensures entries[k].pending in SentSets(entries)
  {
    if k < |entries| - 1 {
      SentIsListed(entries[..|entries| - 1], k);
    }
  }
}
