/**
The assistant status shown in one Slack thread: sessions that set and clear it, the
dispatcher that coalesces sets and handles commands in order, and the controller whose registry
retires and re-creates dispatchers. Every dispatch worker has a controller of its own.
*/
module AssistantStatus {
  import opened MachineInts

  /** Session numbers start at one; zero stands for no session. */
  type Session = nat

  datatype Pending = Pending(session: Session, status: string)

  datatype Command = FlushSet | Clear(session: Session)

  // ---------------------------------------------------------------- the guarded state

  datatype Board = Board(
    current: Session,
    visible: Session,
    pending: Option<Pending>,
    flushScheduled: bool
  )

  const BLANK: Board := Board(0, 0, None, false)

  /** Accepting a set replaces the pending one; a flush is scheduled unless one already is. */
  function Accept(b: Board, p: Pending): Board {
    if b.current != p.session then b else b.(pending := Some(p), flushScheduled := true)
  }

  function Take(b: Board): Board {
    b.(pending := None, flushScheduled := false)
  }

  function Forget(b: Board, session: Session): Board {
    b.(visible := if b.visible == session then 0 else b.visible,
       current := if b.current == session then 0 else b.current)
  }

  /** A session that ends without having set anything only stops being current. */
  function Abandon(b: Board, session: Session): Board {
    b.(current := if b.current == session then 0 else b.current)
  }

  predicate Retired(b: Board) {
    b.current == 0 && b.visible == 0
  }

  /** The mutex-guarded state of one dispatcher; each method is one critical section. */
  class DispatcherState {
    var currentSessionId: Session
    var visibleSessionId: Session
    var pendingSet: Option<Pending>
    var setFlushScheduled: bool

    ghost function View(): Board
      reads this
    {
      Board(currentSessionId, visibleSessionId, pendingSet, setFlushScheduled)
    }

    constructor ()
      ensures View() == BLANK
    {
      currentSessionId, visibleSessionId := 0, 0;
      pendingSet, setFlushScheduled := None, false;
    }

    method Set(p: Pending) returns (scheduleFlush: bool)
      modifies this
      ensures View() == Accept(old(View()), p)
      ensures scheduleFlush <==> old(currentSessionId) == p.session && !old(setFlushScheduled)
    {
      if currentSessionId != p.session {
        return false;
      }
      pendingSet := Some(p);
      if setFlushScheduled {
        scheduleFlush := false;
      } else {
        setFlushScheduled := true;
        scheduleFlush := true;
      }
    }

    method TakePending() returns (p: Option<Pending>)
      modifies this
      ensures View() == Take(old(View())) && p == old(pendingSet)
    {
      p := pendingSet;
      pendingSet, setFlushScheduled := None, false;
    }

    method Cleared(session: Session) returns (retired: bool)
      modifies this
      ensures View() == Forget(old(View()), session)
      ensures retired <==> Retired(View())
    {
      if visibleSessionId == session {
        visibleSessionId := 0;
      }
      if currentSessionId == session {
        currentSessionId := 0;
      }
      retired := currentSessionId == 0 && visibleSessionId == 0;
    }

    method RetireSession(session: Session) returns (retired: bool)
      modifies this
      ensures View() == Abandon(old(View()), session)
      ensures retired <==> old(currentSessionId) == session && Retired(View())
    {
      retired := false;
      if currentSessionId == session {
        currentSessionId := 0;
        retired := visibleSessionId == 0;
      }
    }
  }

  // ---------------------------------------------------------------- dispatchers

  /** What became of an accepted set; a stale one is dropped for the session found current. */
  datatype Fate = Waiting | Taken | Replaced | Sent | Stale(current: Session)

  datatype Entry = Entry(pending: Pending, fate: Fate)

  /** The worker task; transport calls are awaited with no lock held. */
  datatype Phase =
    | Resting
    | Checking(taken: Pending)
    | Setting(sent: Pending, landed: bool)
    | Clearing(session: Session, landed: bool)

  /** A dispatcher, with the sets it accepted, the calls it began and the clears it handled. */
  datatype Dispatcher = Dispatcher(
    board: Board,
    queue: seq<Command>,
    phase: Phase,
    accepted: seq<Entry>,
    begun: seq<Pending>,
    handled: set<Session>
  )

  const NEW_DISPATCHER: Dispatcher := Dispatcher(BLANK, [], Resting, [], [], {})

  function Marked(e: Entry, from: Fate, to: Fate): Entry {
    if e.fate == from then e.(fate := to) else e
  }

  /** Every entry with one fate gets another. */
  function Mark(entries: seq<Entry>, from: Fate, to: Fate): seq<Entry> {
    seq(|entries|, i requires 0 <= i < |entries| => Marked(entries[i], from, to))
  }

  function AcceptSet(d: Dispatcher, p: Pending): Dispatcher {
    if d.board.current != p.session then d
    else d.(board := Accept(d.board, p),
            queue := if d.board.flushScheduled then d.queue else d.queue + [FlushSet],
            accepted := Mark(d.accepted, Waiting, Replaced) + [Entry(p, Waiting)])
  }

  function QueueClear(d: Dispatcher, session: Session): Dispatcher {
    d.(queue := d.queue + [Clear(session)])
  }

  /** The worker takes the next command. */
  function Receive(d: Dispatcher): Dispatcher
    requires d.phase.Resting? && d.queue != []
  {
    var rest := d.(queue := d.queue[1..]);
    match d.queue[0]
    case FlushSet =>
      rest.(board := Take(d.board),
            accepted := Mark(d.accepted, Waiting, Taken),
            phase := if d.board.pending.Some? then Checking(d.board.pending.value) else Resting)
    case Clear(session) =>
      rest.(handled := d.handled + {session},
            phase := if d.board.visible == session then Clearing(session, false) else Resting)
  }

  /** A taken set is sent only if its session is current when checked. */
  function Check(d: Dispatcher): Dispatcher
    requires d.phase.Checking?
  {
    if d.board.current == d.phase.taken.session
    then d.(phase := Setting(d.phase.taken, false), begun := d.begun + [d.phase.taken],
            accepted := Mark(d.accepted, Taken, Sent))
    else d.(phase := Resting, accepted := Mark(d.accepted, Taken, Stale(d.board.current)))
  }

  // ---------------------------------------------------------------- one controller

  datatype SessionState = SessionState(closed: bool, terminalClearQueued: bool, shouldClear: bool)

  /**
  How a set call that reached Slack was answered. A failed one is forgotten if its dispatcher
  has no clear left to land once both the call and its answer are in.
  */
  datatype Answer = InFlight | Acknowledged | Failed(forgotten: bool)

  /** A transport call that took effect in Slack. */
  datatype Landing =
    | LandedSet(dispatcher: nat, session: Session, answer: Answer)
    | LandedClear(dispatcher: nat)

  /** A set call that returned an error before taking effect; it may still do so later. */
  datatype Stray = Stray(dispatcher: nat, session: Session)

  /** One controller's share of a thread. */
  datatype Controller = Controller(
    sessions: map<Session, SessionState>,
    guard: Option<Session>,
    nextSession: Session,
    dispatchers: seq<Dispatcher>,
    registered: Option<nat>,
    strays: seq<Stray>,
    landed: seq<Landing>
  )

  const INITIAL: Controller := Controller(map[], None, 1, [], None, [], [])

  predicate WellFormed(t: Controller) {
    && (t.registered.Some? ==> t.registered.value < |t.dispatchers|)
    && (t.guard.Some? ==> t.guard.value in t.sessions)
    && (forall k | 0 <= k < |t.strays| :: t.strays[k].dispatcher < |t.dispatchers|)
  }

  /** The registered dispatcher, created on demand. */
  function Resolve(t: Controller): (r: Controller)
    requires WellFormed(t)
    ensures WellFormed(r) && r.registered.Some?
  {
    if t.registered.Some? then t
    else t.(dispatchers := t.dispatchers + [NEW_DISPATCHER], registered := Some(|t.dispatchers|))
  }

  function Registered(t: Controller): Dispatcher
    requires WellFormed(t) && t.registered.Some?
  {
    t.dispatchers[t.registered.value]
  }

  function Replace(t: Controller, i: nat, d: Dispatcher): Controller
    requires i < |t.dispatchers|
  {
    t.(dispatchers := t.dispatchers[i := d])
  }

  function Amend(t: Controller, s: Session, info: SessionState): Controller {
    t.(sessions := t.sessions[s := info])
  }

  datatype Event =
    | Start(skipped: nat)
    | SetState(session: Session, status: string)
    | ClearNow
    | DropGuard
    | Deliver(dispatcher: nat)
    | Confirm(dispatcher: nat)
    | Land(dispatcher: nat)
    | Return(dispatcher: nat, ok: bool)
    | LandLate(stray: nat)

  /** A session starts only when no other guard of the controller is alive on the thread. */
  function StartSession(t: Controller, skipped: nat): Controller
    requires WellFormed(t)
  {
    if t.guard.Some? then t
    else
      var s := t.nextSession + skipped;
      var r := Resolve(t);
      var d := Registered(r);
      Replace(r, r.registered.value, d.(board := d.board.(current := s)))
      .(sessions := t.sessions[s := SessionState(false, false, false)],
        guard := Some(s), nextSession := s + 1)
  }

  /** Any holder of a session, such as its delayed first update, may set its state at any time. */
  function SetSession(t: Controller, s: Session, status: string): Controller
    requires WellFormed(t)
  {
    if s !in t.sessions then t
    else
      var r := Resolve(t);
      var marked := Amend(r, s, t.sessions[s].(shouldClear := true));
      if t.sessions[s].closed then marked
      else Replace(marked, r.registered.value, AcceptSet(Registered(r), Pending(s, status)))
  }

  /** Ending a session queues its clear once. */
  function Finish(t: Controller, s: Session): Controller
    requires WellFormed(t) && s in t.sessions
  {
    if t.sessions[s].terminalClearQueued then t
    else
      var r := Resolve(t);
      Replace(Amend(r, s, t.sessions[s].(closed := true, terminalClearQueued := true)),
              r.registered.value, QueueClear(Registered(r), s))
  }

  /** Dropping a guard ends its session; one that never set anything is only retired. */
  function Drop(t: Controller, s: Session): Controller
    requires WellFormed(t) && s in t.sessions
  {
    var dropped := t.(guard := None);
    if t.sessions[s].shouldClear then Finish(dropped, s)
    else
      var r := Resolve(dropped);
      var d := Registered(r);
      var closed := Amend(r, s, t.sessions[s].(closed := true));
      if d.board.current != s then closed
      else
        var retired := d.(board := Abandon(d.board, s));
        Replace(closed, r.registered.value, retired)
        .(registered := if d.board.visible == 0 then None else r.registered)
  }

  /** Some clear of what the dispatcher knows to be visible has yet to take effect. */
  predicate HasClearLeft(d: Dispatcher) {
    d.board.visible != 0 && !(d.phase.Clearing? && d.phase.landed)
  }

  function SetLands(t: Controller, i: nat, s: Session, answer: Answer): Controller {
    t.(landed := t.landed + [LandedSet(i, s, answer)])
  }

  function ClearLands(t: Controller, i: nat): Controller {
    t.(landed := t.landed + [LandedClear(i)])
  }

  /** The call a dispatcher has in flight has landed and is now answered. */
  function Settle(landed: seq<Landing>, i: nat, answer: Answer): seq<Landing> {
    seq(|landed|, k requires 0 <= k < |landed| =>
      if landed[k].LandedSet? && landed[k].dispatcher == i && landed[k].answer.InFlight?
      then landed[k].(answer := answer) else landed[k])
  }

  /** A transport call takes effect in Slack at some moment before it returns. */
  function LandCall(t: Controller, i: nat): Controller
    requires i < |t.dispatchers|
  {
    var d := t.dispatchers[i];
    match d.phase
    case Setting(p, false) =>
      SetLands(Replace(t, i, d.(phase := Setting(p, true))), i, p.session, InFlight)
    case Clearing(s, false) => ClearLands(Replace(t, i, d.(phase := Clearing(s, true))), i)
    case _ => t
  }

  /** Or, when it returned an error first, at any moment after. */
  function LandStray(t: Controller, k: nat): Controller
    requires k < |t.strays| && t.strays[k].dispatcher < |t.dispatchers|
  {
    var stray := t.strays[k];
    var answer := Failed(!HasClearLeft(t.dispatchers[stray.dispatcher]));
    SetLands(t.(strays := t.strays[..k] + t.strays[k + 1..]),
             stray.dispatcher, stray.session, answer)
  }

  /** A set is remembered as visible only if it is acknowledged. */
  function ReturnSet(t: Controller, i: nat, ok: bool): Controller
    requires i < |t.dispatchers| && t.dispatchers[i].phase.Setting?
  {
    var d := t.dispatchers[i];
    var p, landed := d.phase.sent, d.phase.landed;
    if ok && !landed then t
    else if ok then
      Replace(t, i, d.(phase := Resting, board := d.board.(visible := p.session)))
      .(landed := Settle(t.landed, i, Acknowledged))
    else if landed then
      Replace(t, i, d.(phase := Resting))
      .(landed := Settle(t.landed, i, Failed(!HasClearLeft(d))))
    else
      Replace(t, i, d.(phase := Resting)).(strays := t.strays + [Stray(i, p.session)])
  }

  /** Clears are taken to succeed: one returns only after it took effect. */
  function ReturnClear(t: Controller, i: nat): Controller
    requires i < |t.dispatchers| && t.dispatchers[i].phase.Clearing?
  {
    var d := t.dispatchers[i];
    if !d.phase.landed then t
    else
      var board := Forget(d.board, d.phase.session);
      Replace(t, i, d.(phase := Resting, board := board))
      .(registered := if Retired(board) && t.registered == Some(i) then None else t.registered)
  }

  function Step(t: Controller, e: Event): Controller
    requires WellFormed(t)
  {
    match e
    case Start(skipped) => StartSession(t, skipped)
    case SetState(s, status) => SetSession(t, s, status)
    case ClearNow => if t.guard.Some? then Finish(t, t.guard.value) else t
    case DropGuard => if t.guard.Some? then Drop(t, t.guard.value) else t
    case Deliver(i) =>
      if i < |t.dispatchers| && t.dispatchers[i].phase.Resting? && t.dispatchers[i].queue != []
      then Replace(t, i, Receive(t.dispatchers[i])) else t
    case Confirm(i) =>
      if i < |t.dispatchers| && t.dispatchers[i].phase.Checking?
      then Replace(t, i, Check(t.dispatchers[i])) else t
    case Land(i) => if i < |t.dispatchers| then LandCall(t, i) else t
    case Return(i, ok) =>
      if i >= |t.dispatchers| then t
      else if t.dispatchers[i].phase.Setting? then ReturnSet(t, i, ok)
      else if t.dispatchers[i].phase.Clearing? then ReturnClear(t, i)
      else t
    case LandLate(k) => if k < |t.strays| then LandStray(t, k) else t
  }
}
