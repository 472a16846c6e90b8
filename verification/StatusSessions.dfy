/** How a controller's sessions begin and end, in every state its events can lead to. */
module StatusSessions {
  import opened MachineInts
  import opened AssistantStatus
  import opened StatusQuiescence
  import opened StatusSets

  /** The commands a controller's dispatchers have yet to take. */
  ghost predicate SameQueues(t: Controller, r: Controller) {
    && |t.dispatchers| <= |r.dispatchers|
    && forall i | 0 <= i < |r.dispatchers| :: r.dispatchers[i].queue == DispatcherAt(t, i).queue
  }

  /** One more command on the registered dispatcher, and nothing else queued. */
  ghost predicate Queues(t: Controller, r: Controller, command: Command) {
    && t.registered.Some? && t.registered.value < |t.dispatchers| == |r.dispatchers|
    && forall i | 0 <= i < |r.dispatchers| ::
         r.dispatchers[i].queue ==
           t.dispatchers[i].queue + if i == t.registered.value then [command] else []
  }

  ghost predicate StartOpens(t: Controller, skipped: nat, r: Controller) {
    if t.guard.Some? then r == t
    else
      var s := t.nextSession + skipped;
      && s !in t.sessions && r.guard == Some(s) && SameQueues(t, r)
      && r.sessions == t.sessions[s := SessionState(false, false, false)]
      && r.registered.Some? && r.registered.value < |r.dispatchers|
      && r.dispatchers[r.registered.value].board.current == s
  }

  lemma StepStarts(t: Controller, skipped: nat)
    requires WellFormed(t) && forall s | s in t.sessions :: s < t.nextSession
    ensures StartOpens(t, skipped, StartSession(t, skipped))
  {
  }

  /**
  A start opens a session of a number not used before, current on the registered dispatcher, unless
  a guard is alive; then it does nothing.
  */
  lemma StartsExactly(events: seq<Event>, skipped: nat)
    ensures StartOpens(Run(events), skipped, Run(events + [Start(skipped)]))
  {
    RunKeeps(events);
    RunExtends(events, Start(skipped));
    StepStarts(Run(events), skipped);
  }

  /** Clearing an open session closes it and queues its clear; a second clear does nothing. */
  lemma ClearsExactly(events: seq<Event>)
    ensures var t, r := Run(events), Run(events + [ClearNow]);
            if t.guard.Some? && Open(t, t.guard.value) then
              var s := t.guard.value;
              && Queues(t, r, Clear(s)) && r.guard == t.guard
              && r.sessions == t.sessions[s := t.sessions[s].(closed := true,
                                                              terminalClearQueued := true)]
            else r == t
  {
    RunKeeps(events);
    RunExtends(events, ClearNow);
  }

  ghost predicate DropCloses(t: Controller, s: Session, r: Controller)
    requires WellFormed(t) && s in t.sessions
  {
    && r.guard.None? && s in r.sessions && r.sessions[s].closed
    && (t.sessions[s].shouldClear ==>
          if Open(t, s) then Queues(t, r, Clear(s))
          else SameQueues(t, r) && r.registered == t.registered)
    && (!t.sessions[s].shouldClear && Open(t, s) ==>
          && SameQueues(t, r) && t.registered.Some?
          && r.dispatchers[t.registered.value].board.current == 0
          && r.registered == (if Registered(t).board.visible == 0 then None else t.registered))
  }

  lemma StepDrops(t: Controller, s: Session)
    requires SessionInvariant(t) && t.guard == Some(s)
    ensures DropCloses(t, s, Drop(t, s))
  {
  }

  /**
  Dropping the guard of an open session closes it; its clear is queued if it has set anything, and
  otherwise it only stops being current.
  */
  lemma DropsExactly(events: seq<Event>)
    requires Run(events).guard.Some?
    ensures Run(events).guard.value in Run(events).sessions
    ensures DropCloses(Run(events), Run(events).guard.value, Run(events + [DropGuard]))
  {
    RunKeeps(events);
    RunExtends(events, DropGuard);
    StepDrops(Run(events), Run(events).guard.value);
  }

  /** A session's clear reaches Slack only if its status was acknowledged and not yet cleared. */
  lemma ClearsAreSentExactly(events: seq<Event>, i: nat, s: Session)
    requires var t := Run(events);
             && i < |t.dispatchers| && t.dispatchers[i].phase.Resting?
             && t.dispatchers[i].queue != [] && t.dispatchers[i].queue[0] == Clear(s)
    ensures var t, r := Run(events), Run(events + [Deliver(i)]);
            && i < |r.dispatchers| && r.dispatchers[i].queue == t.dispatchers[i].queue[1..]
            && r.dispatchers[i].phase ==
               if t.dispatchers[i].board.visible == s then Clearing(s, false) else Resting
  {
    RunExtends(events, Deliver(i));
  }
}
