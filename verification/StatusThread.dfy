/**
One Slack thread under any number of controllers, one per dispatch worker. Each has its own
dispatchers, registry and session numbers; they share only what Slack shows, which is what the
last call to take effect left there.
*/
module StatusThread {
  import opened MachineInts
  import opened AssistantStatus
  import opened StatusQuiescence

  /** What Slack shows, and the controllers in the order in which their calls took effect. */
  datatype Thread = Thread(
    controllers: seq<Controller>,
    landings: seq<nat>,
    shown: Option<Session>
  )

  datatype Move = Move(controller: nat, event: Event)

  function LeftOnDisplay(landing: Landing): Option<Session> {
    if landing.LandedSet? then Some(landing.session) else None
  }

  /** One step of one controller; a call that takes effect decides what Slack shows. */
  function StepThread(t: Thread, m: Move): Thread
    requires forall c | 0 <= c < |t.controllers| :: WellFormed(t.controllers[c])
  {
    if m.controller >= |t.controllers| then t
    else
      var before := t.controllers[m.controller];
      var next := Step(before, m.event);
      var moved := t.(controllers := t.controllers[m.controller := next]);
      if |next.landed| <= |before.landed| then moved
      else moved.(landings := t.landings + [m.controller],
                  shown := LeftOnDisplay(next.landed[|next.landed| - 1]))
  }

  /** The thread after any interleaving of its controllers. */
  ghost function RunThread(count: nat, moves: seq<Move>): (t: Thread)
    ensures forall c | 0 <= c < |t.controllers| :: WellFormed(t.controllers[c])
  {
    if moves == [] then Thread(seq(count, _ => INITIAL), [], None)
    else
      var before, m := RunThread(count, moves[..|moves| - 1]), moves[|moves| - 1];
      StepKeepsWellFormed(before, m);
      StepThread(before, m)
  }

  lemma StepKeepsWellFormed(t: Thread, m: Move)
    requires forall c | 0 <= c < |t.controllers| :: WellFormed(t.controllers[c])
    ensures forall c | 0 <= c < |t.controllers| :: WellFormed(StepThread(t, m).controllers[c])
    ensures |StepThread(t, m).controllers| == |t.controllers|
  {
    if m.controller < |t.controllers| {
      StepIsWellFormed(t.controllers[m.controller], m.event);
    }
  }

  lemma {:induction false} ControllerCount(count: nat, moves: seq<Move>)
    ensures |RunThread(count, moves).controllers| == count
  {
    if moves != [] {
      ControllerCount(count, moves[..|moves| - 1]);
      StepKeepsWellFormed(RunThread(count, moves[..|moves| - 1]), moves[|moves| - 1]);
    }
  }

  // ---------------------------------------------------------------- each controller runs alone

  /** The events of one controller, in order. */
  function EventsOf(moves: seq<Move>, c: nat): seq<Event> {
    if moves == [] then []
    else
      var last := moves[|moves| - 1];
      EventsOf(moves[..|moves| - 1], c) + if last.controller == c then [last.event] else []
  }

  /** What the others do never changes a controller. */
  lemma {:induction false} ControllersRunAlone(count: nat, moves: seq<Move>, c: nat)
    requires c < count
    ensures var t := RunThread(count, moves);
            |t.controllers| == count && t.controllers[c] == Run(EventsOf(moves, c))
  {
    if moves != [] {
      var earlier, m := moves[..|moves| - 1], moves[|moves| - 1];
      ControllersRunAlone(count, earlier, c);
      if m.controller == c {
        RunExtends(EventsOf(earlier, c), m.event);
      } else {
        assert EventsOf(moves, c) == EventsOf(earlier, c);
      }
    }
  }

  // ---------------------------------------------------------------- what Slack shows

  lemma SettleKeepsDisplay(landed: seq<Landing>, i: nat, answer: Answer)
    ensures var settled := Settle(landed, i, answer);
            && |settled| == |landed|
            && forall k | 0 <= k < |landed| :: LeftOnDisplay(settled[k]) == LeftOnDisplay(landed[k])
  {
  }

  /** A step adds at most one landed call, and what earlier ones left on display stays as it was. */
  ghost predicate LandsAtMostOnce(t: Controller, r: Controller) {
    && |t.landed| <= |r.landed| <= |t.landed| + 1
    && forall k | 0 <= k < |t.landed| :: LeftOnDisplay(r.landed[k]) == LeftOnDisplay(t.landed[k])
  }

  lemma ReturnLands(t: Controller, i: nat, ok: bool)
    requires i < |t.dispatchers|
    ensures t.dispatchers[i].phase.Setting? ==> LandsAtMostOnce(t, ReturnSet(t, i, ok))
    ensures t.dispatchers[i].phase.Clearing? ==> LandsAtMostOnce(t, ReturnClear(t, i))
  {
    SettleKeepsDisplay(t.landed, i, Acknowledged);
    SettleKeepsDisplay(t.landed, i, Failed(!HasClearLeft(t.dispatchers[i])));
  }

  lemma CallLands(t: Controller, i: nat, k: nat)
    requires WellFormed(t)
    ensures i < |t.dispatchers| ==> LandsAtMostOnce(t, LandCall(t, i))
    ensures k < |t.strays| ==> LandsAtMostOnce(t, LandStray(t, k))
  {
  }

  lemma CommandLands(t: Controller, e: Event)
    requires WellFormed(t) && (e.Deliver? || e.Confirm?)
    ensures Step(t, e).landed == t.landed
  {
  }

  lemma StepLands(t: Controller, e: Event)
    requires WellFormed(t)
    ensures LandsAtMostOnce(t, Step(t, e))
  {
    match e
    case Land(i) => CallLands(t, i, |t.strays|);
    case LandLate(k) => CallLands(t, |t.dispatchers|, k);
    case Return(i, ok) => if i < |t.dispatchers| { ReturnLands(t, i, ok); }
    case Deliver(_) => CommandLands(t, e);
    case Confirm(_) => CommandLands(t, e);
    case _ => SessionTouches(t, e);
  }

  /** Slack shows what the last call to take effect left, whichever controller made it. */
  ghost predicate DisplayInvariant(t: Thread) {
    if t.landings == [] then
      t.shown.None? && forall c | 0 <= c < |t.controllers| :: t.controllers[c].landed == []
    else
      var c := t.landings[|t.landings| - 1];
      && c < |t.controllers| && t.controllers[c].landed != []
      && var landed := t.controllers[c].landed; t.shown == LeftOnDisplay(landed[|landed| - 1])
  }

  lemma StepKeepsDisplay(t: Thread, m: Move)
    requires forall c | 0 <= c < |t.controllers| :: WellFormed(t.controllers[c])
    requires DisplayInvariant(t)
    ensures DisplayInvariant(StepThread(t, m))
  {
    if m.controller < |t.controllers| {
      StepLands(t.controllers[m.controller], m.event);
    }
  }

  lemma {:induction false} DisplayFollowsCalls(count: nat, moves: seq<Move>)
    ensures DisplayInvariant(RunThread(count, moves))
  {
    if moves != [] {
      DisplayFollowsCalls(count, moves[..|moves| - 1]);
      StepKeepsDisplay(RunThread(count, moves[..|moves| - 1]), moves[|moves| - 1]);
    }
  }

  // ---------------------------------------------------------------- quiescence

  /** On every controller all sessions have ended, all queues are empty and all workers rest. */
  ghost predicate AllDrained(t: Thread) {
    forall c | 0 <= c < |t.controllers| :: Drained(t.controllers[c])
  }

  /** The last call to take effect was a set that failed, with no clear left behind it. */
  ghost predicate EndsForgottenOn(t: Thread) {
    && t.landings != []
    && var c := t.landings[|t.landings| - 1];
       c < |t.controllers| && EndsForgotten(t.controllers[c].landed)
  }

  /**
  Once every session has ended and every queue is drained, on however many controllers and however
  many dispatchers were retired and re-created on the way, Slack shows a status if and only if the
  last call that took effect is a set that returned an error and had no clear left behind it.
  Sessions of different controllers may overlap.
  */
  lemma QuiescenceExactly(count: nat, moves: seq<Move>)
    requires AllDrained(RunThread(count, moves))
    ensures var t := RunThread(count, moves); t.shown.Some? <==> EndsForgottenOn(t)
  {
    var t := RunThread(count, moves);
    DisplayFollowsCalls(count, moves);
    forall c | 0 <= c < |t.controllers| ensures SetsAreForgotten(t.controllers[c]) {
      DrainedController(count, moves, c);
    }
    DisplayExactly(t);
  }

  /** The controller's last call to take effect is a set only if that set is forgotten. */
  predicate SetsAreForgotten(t: Controller) {
    EndsWithSet(t.landed) <==> EndsForgotten(t.landed)
  }

  lemma DisplayExactly(t: Thread)
    requires DisplayInvariant(t)
    requires forall c | 0 <= c < |t.controllers| :: SetsAreForgotten(t.controllers[c])
    ensures t.shown.Some? <==> EndsForgottenOn(t)
  {
    if t.landings != [] {
      assert SetsAreForgotten(t.controllers[t.landings[|t.landings| - 1]]);
    }
  }

  lemma DrainedController(count: nat, moves: seq<Move>, c: nat)
    requires c < |RunThread(count, moves).controllers|
    requires Drained(RunThread(count, moves).controllers[c])
    ensures SetsAreForgotten(RunThread(count, moves).controllers[c])
  {
    ControllerCount(count, moves);
    ControllersRunAlone(count, moves, c);
    RunKeeps(EventsOf(moves, c));
    DrainedShows(Run(EventsOf(moves, c)));
  }

  /** So Slack shows nothing when every set that took effect was acknowledged. */
  lemma Quiescence(count: nat, moves: seq<Move>)
    requires var t := RunThread(count, moves);
             && AllDrained(t)
             && forall c, k | 0 <= c < |t.controllers| && 0 <= k < |t.controllers[c].landed| ::
                  var landing := t.controllers[c].landed[k];
                  landing.LandedSet? ==> !landing.answer.Failed?
    ensures RunThread(count, moves).shown.None?
  {
    QuiescenceExactly(count, moves);
  }

  /** The moves of a thread with a single controller. */
  function Alone(events: seq<Event>): seq<Move> {
    seq(|events|, i requires 0 <= i < |events| => Move(0, events[i]))
  }

  lemma {:induction false} EventsOfAlone(events: seq<Event>)
    ensures EventsOf(Alone(events), 0) == events
  {
    if events != [] {
      var n := |events| - 1;
      EventsOfAlone(events[..n]);
      assert Alone(events)[..n] == Alone(events[..n]);
      assert events == events[..n] + [events[n]];
    }
  }

  lemma LandedSetIsShown(t: Thread)
    requires DisplayInvariant(t) && |t.controllers| == 1 && Drained(t.controllers[0])
    requires EndsWithSet(t.controllers[0].landed)
    ensures AllDrained(t) && t.shown.Some?
  {
    assert t.landings != [];
  }

  /** A drained thread that still shows the status of a set that failed after it took effect. */
  lemma FailedSetStaysShown() returns (moves: seq<Move>)
    ensures var t := RunThread(1, moves); AllDrained(t) && t.shown.Some?
  {
    var events := FailedSetIsForgotten();
    moves := Alone(events);
    EventsOfAlone(events);
    ControllersRunAlone(1, moves, 0);
    DisplayFollowsCalls(1, moves);
    LandedSetIsShown(RunThread(1, moves));
  }
}
