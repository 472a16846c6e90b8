/**
Where a channel dispatch leads when nothing goes wrong, from any state the workers can be in: which
events are ignored, when an event is given back, and what an answered or failed run leaves behind.
*/
module DispatchProgress {
  import opened MachineInts
  import opened ConversationKeys
  import opened SummaryBound
  import opened ChannelDispatch

  // ---------------------------------------------------------------- one worker's part of a run

  /** What the steps of one worker depend on and change. */
  datatype View = View(worker: Worker, active: set<string>, rows: map<StoredKey, string>)

  function ViewOf(s: State, i: nat): View
    requires i < |s.workers|
  {
    View(s.workers[i], s.active, s.rows)
  }

  function Advance(update: Update, v: View, input: Input): View {
    var r := StepWorker(update, v.worker, v.active, v.rows, input);
    View(r.worker, r.active,
         match r.write case None => v.rows case Some(w) => v.rows[w.row := w.summary])
  }

  function Play(update: Update, v: View, inputs: seq<Input>): View {
    if inputs == [] then v
    else Advance(update, Play(update, v, inputs[..|inputs| - 1]), inputs[|inputs| - 1])
  }

  /** The worker moves and nobody else does. */
  function Alone(i: nat, inputs: seq<Input>): seq<Move> {
    seq(|inputs|, n requires 0 <= n < |inputs| => Move(i, inputs[n]))
  }

  lemma StepAdvances(update: Update, s: State, i: nat, input: Input)
    requires i < |s.workers|
    ensures var t := StepState(update, s, Move(i, input));
            |t.workers| == |s.workers| && ViewOf(t, i) == Advance(update, ViewOf(s, i), input)
  {
  }

  lemma RunAdvances(c: Setting, moves: seq<Move>, i: nat, input: Input)
    requires i < |Run(c, moves).0.workers|
    ensures var s, t := Run(c, moves).0, Run(c, moves + [Move(i, input)]).0;
            |t.workers| == |s.workers| && ViewOf(t, i) == Advance(c.update, ViewOf(s, i), input)
  {
    assert (moves + [Move(i, input)])[..|moves|] == moves;
    StepAdvances(c.update, Run(c, moves).0, i, input);
  }

  lemma AloneGrows(moves: seq<Move>, i: nat, inputs: seq<Input>, input: Input)
    ensures moves + Alone(i, inputs + [input]) == moves + Alone(i, inputs) + [Move(i, input)]
  {
  }

  lemma PlayGrows(update: Update, v: View, inputs: seq<Input>, input: Input)
    ensures Play(update, v, inputs + [input]) == Advance(update, Play(update, v, inputs), input)
  {
    assert (inputs + [input])[..|inputs|] == inputs;
  }

  lemma {:induction false} RunPlays(c: Setting, moves: seq<Move>, i: nat, inputs: seq<Input>)
    requires i < |Run(c, moves).0.workers|
    ensures var s, t := Run(c, moves).0, Run(c, moves + Alone(i, inputs)).0;
            |t.workers| == |s.workers| && ViewOf(t, i) == Play(c.update, ViewOf(s, i), inputs)
  {
    if inputs == [] {
      assert moves + Alone(i, inputs) == moves;
    } else {
      var front, last := inputs[..|inputs| - 1], inputs[|inputs| - 1];
      assert inputs == front + [last];
      RunPlays(c, moves, i, front);
      AloneGrows(moves, i, front, last);
      RunAdvances(c, moves + Alone(i, front), i, last);
      PlayGrows(c.update, ViewOf(Run(c, moves).0, i), front, last);
    }
  }

  lemma PlayOne(update: Update, v: View, a: Input)
    ensures Play(update, v, [a]) == Advance(update, v, a)
  {
    assert [a][..0] == [];
  }

  lemma {:induction false} PlayTogether(update: Update, v: View, a: seq<Input>, b: seq<Input>)
    ensures Play(update, v, a + b) == Play(update, Play(update, v, a), b)
    decreases |b|
  {
    if b == [] {
      assert a + b == a;
    } else {
      PlayTogether(update, v, a, b[..|b| - 1]);
      assert (a + b)[..|a + b| - 1] == a + b[..|b| - 1];
    }
  }

  // ---------------------------------------------------------------- claims and locks

  lemma SortsEvent(update: Update, v: View, id: nat, event: ChannelEvent, message: Option<string>)
    requires v.worker.Resting?
    ensures Advance(update, v, Event(id, event, message)) == v.(worker :=
              if event.provider == "slack"
                 && event.kind in {MessageReceived, MentionReceived, DirectMessageReceived}
              then Sourcing(id, event, message) else Ignoring(id))
  {
  }

  /** A claimed event is worked on exactly when it is one of Slack's three kinds of message. */
  lemma EventsAreSorted(c: Setting, moves: seq<Move>, i: nat, id: nat, event: ChannelEvent,
                        message: Option<string>)
    requires var s := Run(c, moves).0; i < |s.workers| && s.workers[i].Resting?
    ensures var v := ViewOf(Run(c, moves).0, i);
            var t := Run(c, moves + Alone(i, [Event(id, event, message)])).0;
            && i < |t.workers| && t.active == v.active && t.rows == v.rows
            && t.workers[i] ==
               if event.provider == "slack"
                  && event.kind in {MessageReceived, MentionReceived, DirectMessageReceived}
               then Sourcing(id, event, message)
               else Ignoring(id)
  {
    RunPlays(c, moves, i, [Event(id, event, message)]);
    PlayOne(c.update, ViewOf(Run(c, moves).0, i), Event(id, event, message));
    SortsEvent(c.update, ViewOf(Run(c, moves).0, i), id, event, message);
  }

  /** And completed as it is otherwise. */
  lemma IgnoredEventsComplete(c: Setting, moves: seq<Move>, i: nat)
    requires var s := Run(c, moves).0; i < |s.workers| && s.workers[i].Ignoring?
    ensures var s, t := Run(c, moves).0, Run(c, moves + Alone(i, [Done])).0;
            i < |t.workers| && t.workers[i] == Resting(Ignored(s.workers[i].id))
  {
    RunPlays(c, moves, i, [Done]);
    PlayOne(c.update, ViewOf(Run(c, moves).0, i), Done);
  }

  /** A conversation is refused exactly when another worker holds it; the event is given back. */
  lemma LocksDecideExactly(c: Setting, moves: seq<Move>, i: nat, input: Input)
    requires var s := Run(c, moves).0; i < |s.workers| && s.workers[i].Locking?
    ensures var s, t := Run(c, moves).0, Run(c, moves + Alone(i, [input])).0;
            var work := s.workers[i].work;
            && i < |t.workers|
            && t.workers[i] == (if exists j :: j != i && Holds(s, j, work.names.text)
                                then Releasing(work.id) else LoadingThread(work))
  {
    var s := Run(c, moves).0;
    RunPlays(c, moves, i, [input]);
    PlayOne(c.update, ViewOf(s, i), input);
    LocksAlwaysArePermits(c, moves);
    var key := s.workers[i].work.names.text;
    if key in s.active {
      var j :| Holds(s, j, key);
      assert j != i;
    }
  }

  // ---------------------------------------------------------------- a whole dispatch

  /** From the claim to the run, with nothing going wrong. */
  function Approach(id: nat, event: ChannelEvent, message: Option<string>,
                    source: SourceReferences): seq<Input>
  {
    [Event(id, event, message), Sourced(source)] + [Done, Done] + [Done, Done]
  }

  lemma PlayTwo(update: Update, v: View, a: Input, b: Input)
    ensures Play(update, v, [a, b]) == Advance(update, Advance(update, v, a), b)
  {
    PlayTogether(update, v, [a], [b]);
    assert [a] + [b] == [a, b];
    PlayOne(update, v, a);
    PlayOne(update, Advance(update, v, a), b);
  }

  lemma Claiming(update: Update, v: View, id: nat, event: ChannelEvent, message: Option<string>,
                 source: SourceReferences)
    requires v.worker.Resting? && Dispatchable(event)
    ensures Play(update, v, [Event(id, event, message), Sourced(source)])
            == v.(worker := Locking(Work(id, ConversationNames(event, source), message)))
  {
    PlayTwo(update, v, Event(id, event, message), Sourced(source));
  }

  lemma Acquiring(update: Update, v: View, work: Work)
    requires v.worker == Locking(work) && work.names.text !in v.active
    ensures Play(update, v, [Done, Done])
            == v.(worker := LoadingSummary(work), active := v.active + {work.names.text})
  {
    PlayTwo(update, v, Done, Done);
  }

  lemma Starting(update: Update, v: View, work: Work)
    requires v.worker == LoadingSummary(work)
    ensures Play(update, v, [Done, Done])
            == v.(worker := Running(work, Row(v.rows, work.names.stored)))
  {
    PlayTwo(update, v, Done, Done);
  }

  lemma Approaching(update: Update, v: View, id: nat, event: ChannelEvent,
                    message: Option<string>, source: SourceReferences)
    requires v.worker.Resting? && Dispatchable(event)
    requires ConversationNames(event, source).text !in v.active
    ensures var work := Work(id, ConversationNames(event, source), message);
            Play(update, v, Approach(id, event, message, source)) ==
            View(Running(work, Row(v.rows, work.names.stored)), v.active + {work.names.text},
                 v.rows)
  {
    var work := Work(id, ConversationNames(event, source), message);
    var claim := [Event(id, event, message), Sourced(source)];
    Claiming(update, v, id, event, message, source);
    PlayTogether(update, v, claim, [Done, Done]);
    var locking := v.(worker := Locking(work));
    Acquiring(update, locking, work);
    PlayTogether(update, v, claim + [Done, Done], [Done, Done]);
    Starting(update, Play(update, locking, [Done, Done]), work);
  }

  /** The rows after a turn of a conversation. */
  function RowsAfter(update: Update, rows: map<StoredKey, string>, k: StoredKey, turn: Turn)
    : map<StoredKey, string>
  {
    match update(Row(rows, k), turn)
    case None => rows
    case Some(updated) => rows[k := updated]
  }

  lemma Completes(update: Update, v: View, work: Work, draft: bool)
    requires v.worker == Completing(work, draft)
    ensures Advance(update, v, Done) ==
            View(Resting(if draft then Dispatched(work.id) else Accepted(work.id)),
                 v.active - {work.names.text}, v.rows)
  {
  }

  lemma RestingWaits(update: Update, v: View)
    requires v.worker.Resting?
    ensures Advance(update, v, Done) == v
  {
  }

  lemma Saves(update: Update, v: View, work: Work, turn: Turn, updated: string)
    requires v.worker == SavingSummary(work, Row(v.rows, work.names.stored), turn)
    requires update(Row(v.rows, work.names.stored), turn) == Some(updated)
    ensures Advance(update, v, Done) ==
            v.(worker := Completing(work, turn.reply.Some?),
               rows := v.rows[work.names.stored := updated])
  {
  }

  /** The updated summary is stored and the event completed. */
  lemma Ending(update: Update, v: View, work: Work, turn: Turn)
    requires v.worker == AfterThread(update, work, Row(v.rows, work.names.stored), turn)
    ensures Play(update, v, [Done, Done]) ==
            View(Resting(if turn.reply.Some? then Dispatched(work.id) else Accepted(work.id)),
                 v.active - {work.names.text}, RowsAfter(update, v.rows, work.names.stored, turn))
  {
    PlayTwo(update, v, Done, Done);
    var next := Advance(update, v, Done);
    match update(Row(v.rows, work.names.stored), turn)
    case Some(updated) =>
      Saves(update, v, work, turn, updated);
      Completes(update, next, work, turn.reply.Some?);
    case None =>
      Completes(update, v, work, turn.reply.Some?);
      RestingWaits(update, next);
  }

  /** The draft and the thread id are saved first, where there are any. */
  function Answer(reply: Option<string>, thread: bool): seq<Input> {
    [AgentOk(reply, thread)] + (if reply.Some? then [Done] else [])
    + (if thread then [Done] else [])
  }

  lemma AnswerThreads(update: Update, v: View, work: Work, summary: Option<string>, turn: Turn,
                      thread: bool)
    requires v.worker == AfterDraft(update, work, summary, turn, thread)
    ensures Play(update, v, if thread then [Done] else [])
            == v.(worker := AfterThread(update, work, summary, turn))
  {
    if thread {
      PlayOne(update, v, Done);
    }
  }

  lemma Answers(update: Update, v: View, work: Work, summary: Option<string>,
                reply: Option<string>, thread: bool)
    requires v.worker == Running(work, summary)
    ensures var turn := Turn(work.message, reply);
            Advance(update, v, AgentOk(reply, thread)) == v.(worker :=
              if reply.Some? then SavingDraft(work, summary, turn, thread)
              else AfterDraft(update, work, summary, turn, thread))
  {
  }

  lemma AnswerDrafts(update: Update, v: View, work: Work, summary: Option<string>,
                     reply: Option<string>, thread: bool)
    requires v.worker == Running(work, summary)
    ensures Play(update, v, [AgentOk(reply, thread)] + if reply.Some? then [Done] else []) ==
            v.(worker := AfterDraft(update, work, summary, Turn(work.message, reply), thread))
  {
    Answers(update, v, work, summary, reply, thread);
    if reply.Some? {
      PlayTwo(update, v, AgentOk(reply, thread), Done);
      assert [AgentOk(reply, thread)] + [Done] == [AgentOk(reply, thread), Done];
    } else {
      PlayOne(update, v, AgentOk(reply, thread));
      assert [AgentOk(reply, thread)] + [] == [AgentOk(reply, thread)];
    }
  }

  lemma Answering(update: Update, v: View, work: Work, summary: Option<string>,
                  reply: Option<string>, thread: bool)
    requires v.worker == Running(work, summary)
    ensures Play(update, v, Answer(reply, thread)) ==
            v.(worker := AfterThread(update, work, summary, Turn(work.message, reply)))
  {
    var drafted := [AgentOk(reply, thread)] + if reply.Some? then [Done] else [];
    AnswerDrafts(update, v, work, summary, reply, thread);
    PlayTogether(update, v, drafted, if thread then [Done] else []);
    AnswerThreads(update, Play(update, v, drafted), work, summary, Turn(work.message, reply),
                  thread);
  }

  /**
  From any reachable state a resting worker that claims a message of a free conversation runs the
  agent once the conversation is its own; whatever the agent answers, the turn made of the event's
  message and that answer is added to the stored summary, the event is completed and the
  conversation is free again.
  */
  lemma AnsweredEventsComplete(c: Setting, moves: seq<Move>, i: nat, id: nat, event: ChannelEvent,
                               message: Option<string>, source: SourceReferences,
                               reply: Option<string>, thread: bool)
    requires var s := Run(c, moves).0;
             && i < |s.workers| && s.workers[i].Resting? && Dispatchable(event)
             && ConversationNames(event, source).text !in s.active
    ensures var s := Run(c, moves).0;
            var inputs := Approach(id, event, message, source) + Answer(reply, thread)
                          + [Done, Done];
            var t := Run(c, moves + Alone(i, inputs)).0;
            && i < |t.workers| && t.active == s.active
            && t.workers[i] == Resting(if reply.Some? then Dispatched(id) else Accepted(id))
            && t.rows == RowsAfter(c.update, s.rows, ConversationNames(event, source).stored,
                                   Turn(message, reply))
  {
    var v := ViewOf(Run(c, moves).0, i);
    var work := Work(id, ConversationNames(event, source), message);
    var start, said := Approach(id, event, message, source), Answer(reply, thread);
    RunPlays(c, moves, i, start + said + [Done, Done]);
    PlayTogether(c.update, v, start + said, [Done, Done]);
    PlayTogether(c.update, v, start, said);
    Approaching(c.update, v, id, event, message, source);
    var running := Play(c.update, v, start);
    Answering(c.update, running, work, Row(v.rows, work.names.stored), reply, thread);
    Ending(c.update, Play(c.update, running, said), work, Turn(message, reply));
    assert v.active + {work.names.text} - {work.names.text} == v.active;
  }

  lemma Errs(update: Update, v: View, work: Work, summary: Option<string>, stream: bool)
    requires v.worker == Running(work, summary)
    ensures Advance(update, v, AgentError(stream))
            == v.(worker := if stream then StoppingStream(work) else Worker.Failing(work))
  {
  }

  lemma Stops(update: Update, v: View, work: Work)
    requires v.worker == StoppingStream(work)
    ensures Advance(update, v, Done) == v.(worker := Worker.Failing(work))
  {
  }

  lemma Fails(update: Update, v: View, work: Work)
    requires v.worker == Worker.Failing(work)
    ensures Advance(update, v, Done)
            == View(Resting(Failed(work.id)), v.active - {work.names.text}, v.rows)
  {
  }

  lemma Failing(update: Update, v: View, work: Work, summary: Option<string>, stream: bool)
    requires v.worker == Running(work, summary)
    ensures Play(update, v, [AgentError(stream), Done] + [Done]) ==
            View(Resting(Failed(work.id)), v.active - {work.names.text}, v.rows)
  {
    PlayTogether(update, v, [AgentError(stream), Done], [Done]);
    PlayTwo(update, v, AgentError(stream), Done);
    PlayOne(update, Play(update, v, [AgentError(stream), Done]), Done);
    Errs(update, v, work, summary, stream);
    var failed := v.(worker := Worker.Failing(work));
    Fails(update, failed, work);
    if stream {
      Stops(update, v.(worker := StoppingStream(work)), work);
    } else {
      RestingWaits(update, Advance(update, failed, Done));
    }
  }

  /** A run that fails leaves the summaries alone and the event failed. */
  lemma FailedEventsFail(c: Setting, moves: seq<Move>, i: nat, id: nat, event: ChannelEvent,
                         message: Option<string>, source: SourceReferences, stream: bool)
    requires var s := Run(c, moves).0;
             && i < |s.workers| && s.workers[i].Resting? && Dispatchable(event)
             && ConversationNames(event, source).text !in s.active
    ensures var s := Run(c, moves).0;
            var inputs := Approach(id, event, message, source)
                          + ([AgentError(stream), Done] + [Done]);
            var t := Run(c, moves + Alone(i, inputs)).0;
            && i < |t.workers| && t.active == s.active && t.rows == s.rows
            && t.workers[i] == Resting(Failed(id))
  {
    var v := ViewOf(Run(c, moves).0, i);
    var work := Work(id, ConversationNames(event, source), message);
    var start, failure := Approach(id, event, message, source), [AgentError(stream), Done] + [Done];
    RunPlays(c, moves, i, start + failure);
    PlayTogether(c.update, v, start, failure);
    Approaching(c.update, v, id, event, message, source);
    Failing(c.update, Play(c.update, v, start), work, Row(v.rows, work.names.stored), stream);
    assert v.active + {work.names.text} - {work.names.text} == v.active;
  }
}
