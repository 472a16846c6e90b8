/**
The stored conversation summaries under concurrent dispatch. A worker reads a summary before the
agent runs and writes its update afterwards; the conversation lock must keep every other update of
the same row out in between.
*/
module ChannelSummaries {
  import opened MachineInts
  import opened ConversationKeys
  import opened SummaryBound
  import opened ChannelDispatch

  /** The locked text is the one the stored key calls for. */
  ghost predicate NamesFit(w: Worker) {
    WorkOf(w).Some? ==>
      var names := WorkOf(w).value.names;
      names.stored.channelId.Some? ==> names.text == TextOf(names.stored)
  }

  /** Only supported events are sourced, and a turn is about the event's own message. */
  ghost predicate EventFits(w: Worker) {
    && (w.Sourcing? ==> Dispatchable(w.event))
    && (w.SavingDraft? || w.SavingThread? || w.SavingSummary? ==> w.turn.message == w.work.message)
  }

  function Next(update: Update, summary: Option<string>, turn: Turn): Option<string> {
    var updated := update(summary, turn);
    if updated.None? then summary else updated
  }

  /** A summary after a sequence of turns, one at a time. */
  function Fold(update: Update, summary: Option<string>, turns: seq<Turn>): Option<string> {
    if turns == [] then summary
    else Next(update, Fold(update, summary, turns[..|turns| - 1]), turns[|turns| - 1])
  }

  /** A step writes, if anything, the update of what its worker read, under its permit. */
  ghost predicate WritesOwn(update: Update, w: Worker, r: Stepped) {
    r.write.Some? ==>
      && Recalls(w).Some? && Permit(w).Some?
      && r.write.value.row == WorkOf(w).value.names.stored
      && update(Recalls(w).value, r.write.value.turn) == Some(r.write.value.summary)
  }

  /** The worker goes on with what it knows, or has just read the row. */
  ghost predicate KeepsReading(rows: map<StoredKey, string>, w: Worker, r: Stepped) {
    && (WorkOf(r.worker).Some? && WorkOf(w).Some? ==> WorkOf(r.worker) == WorkOf(w))
    && (Recalls(r.worker).Some? ==>
          && WorkOf(w).Some? && r.write.None?
          && (Recalls(r.worker) == Recalls(w)
              || Recalls(r.worker).value == Row(rows, WorkOf(w).value.names.stored)))
  }

  lemma ClaimReads(w: Worker, active: set<string>, rows: map<StoredKey, string>, input: Input)
    requires EventFits(w) && NamesFit(w)
    ensures var r := ClaimStep(w, active, input);
            && EventFits(r.worker) && NamesFit(r.worker) && r.write.None?
            && (WorkOf(w).None? || w.Locking? ==> KeepsReading(rows, w, r))
  {
    if w.Sourcing? && input.Sourced? {
      TextFollowsStoredKey(w.event, input.source);
    }
  }

  lemma RunReads(update: Update, w: Worker, active: set<string>, rows: map<StoredKey, string>,
                 input: Input)
    requires w.LoadingThread? || w.LoadingSummary? || w.LoadingContext? || w.Running?
    ensures var r := RunStep(update, w, active, rows, input);
            KeepsReading(rows, w, r) && r.write.None? && EventFits(r.worker)
  {
  }

  lemma SaveReads(update: Update, w: Worker, active: set<string>, rows: map<StoredKey, string>,
                  input: Input)
    requires WorkOf(w).Some? && !w.Locking?
    requires !(w.LoadingThread? || w.LoadingSummary? || w.LoadingContext? || w.Running?)
    requires EventFits(w)
    ensures var r := SaveStep(update, w, active, input);
            KeepsReading(rows, w, r) && WritesOwn(update, w, r) && EventFits(r.worker)
  {
  }

  lemma StepReads(update: Update, w: Worker, active: set<string>, rows: map<StoredKey, string>,
                  input: Input)
    requires EventFits(w) && NamesFit(w)
    ensures var r := StepWorker(update, w, active, rows, input);
            && EventFits(r.worker) && NamesFit(r.worker)
            && KeepsReading(rows, w, r) && WritesOwn(update, w, r)
  {
    if WorkOf(w).None? || w.Locking? {
      ClaimReads(w, active, rows, input);
    } else if w.LoadingThread? || w.LoadingSummary? || w.LoadingContext? || w.Running? {
      RunReads(update, w, active, rows, input);
    } else {
      SaveReads(update, w, active, rows, input);
    }
  }

  // ---------------------------------------------------------------- what a row consists of

  /** The turns a row is made of, from what was stored at first or afresh after a delete. */
  datatype Line = Line(afresh: bool, turns: seq<Turn>)

  function Extended(line: Line, turn: Turn): Line { line.(turns := line.turns + [turn]) }

  /** An overtaken write goes on from what the delete took away; any other from what is there. */
  function LineOf(log: seq<Change>, k: StoredKey): Line
    decreases |log|, 0
  {
    if log == [] then Line(false, [])
    else
      var before, last := log[..|log| - 1], log[|log| - 1];
      if last.row != k then LineOf(before, k)
      else match last
        case Deleted(_) => Line(true, [])
        case Wrote(_, turn, _, overtaken) =>
          Extended(if overtaken then LineBeforeDelete(before, k) else LineOf(before, k), turn)
  }

  /** The line as it was before the row was deleted, if a delete is the newest change. */
  function LineBeforeDelete(log: seq<Change>, k: StoredKey): Line
    decreases |log|, 1
  {
    if log == [] then LineOf(log, k)
    else
      var before, last := log[..|log| - 1], log[|log| - 1];
      if last.row != k then LineBeforeDelete(before, k)
      else if last.Deleted? then LineOf(before, k)
      else LineOf(log, k)
  }

  function ValueOf(c: Setting, line: Line, k: StoredKey): Option<string> {
    Fold(c.update, if line.afresh then None else Row(c.rows, k), line.turns)
  }

  lemma LineSkips(log: seq<Change>, change: Change, k: StoredKey)
    requires change.row != k
    ensures LineOf(log + [change], k) == LineOf(log, k)
    ensures LineBeforeDelete(log + [change], k) == LineBeforeDelete(log, k)
  {
    assert (log + [change])[..|log|] == log;
  }

  lemma LineDeletes(log: seq<Change>, k: StoredKey)
    ensures LineOf(log + [Deleted(k)], k) == Line(true, [])
    ensures LineBeforeDelete(log + [Deleted(k)], k) == LineOf(log, k)
  {
    assert (log + [Deleted(k)])[..|log|] == log;
  }

  lemma LineWrites(log: seq<Change>, change: Change, k: StoredKey)
    requires change.Wrote? && change.row == k
    ensures LineOf(log + [change], k) ==
            Extended(if change.overtaken then LineBeforeDelete(log, k) else LineOf(log, k),
                     change.turn)
  {
    assert (log + [change])[..|log|] == log;
  }

  lemma ValueExtended(c: Setting, line: Line, turn: Turn, k: StoredKey)
    ensures ValueOf(c, Extended(line, turn), k) == Next(c.update, ValueOf(c, line, k), turn)
  {
    assert (line.turns + [turn])[..|line.turns|] == line.turns;
  }

  // ---------------------------------------------------------------- what every run keeps

  ghost predicate WorkersFit(s: State) {
    && (forall i | 0 <= i < |s.workers| :: EventFits(s.workers[i]) && NamesFit(s.workers[i]))
    && (forall i | i in s.overtaken :: i < |s.workers| && Recalls(s.workers[i]).Some?)
  }

  /** What a worker read of the row is still there, or was there before it was deleted. */
  ghost predicate ReadFits(c: Setting, s: State, k: StoredKey, i: nat)
    requires i < |s.workers|
  {
    Reads(s.workers[i], k) ==>
      var read := Recalls(s.workers[i]).value;
      if i in s.overtaken then
        Row(s.rows, k).None? && read.Some? && read == ValueOf(c, LineBeforeDelete(s.log, k), k)
      else
        read == Row(s.rows, k)
  }

  ghost predicate RowInvariant(c: Setting, s: State, k: StoredKey) {
    && Row(s.rows, k) == ValueOf(c, LineOf(s.log, k), k)
    && forall i | 0 <= i < |s.workers| :: ReadFits(c, s, k, i)
  }

  lemma StepKeepsWorkers(update: Update, s: State, m: Move)
    requires WorkersFit(s)
    ensures WorkersFit(StepState(update, s, m))
  {
    if m.Move? && m.worker < |s.workers| {
      StepReads(update, s.workers[m.worker], s.active, s.rows, m.input);
    }
  }

  /** Another worker that reads the same row would hold the same lock. */
  lemma OthersReadElsewhere(s: State, i: nat, j: nat, k: StoredKey)
    requires LocksArePermits(s) && WorkersFit(s) && k.channelId.Some?
    requires i < |s.workers| && j < |s.workers| && i != j
    requires Reads(s.workers[i], k)
    ensures !Reads(s.workers[j], k)
  {
    if Reads(s.workers[j], k) {
      assert Holds(s, i, TextOf(k)) && Holds(s, j, TextOf(k));
    }
  }

  lemma DeleteKeepsRow(c: Setting, s: State, k: StoredKey, row: StoredKey)
    requires RowInvariant(c, s, k) && row in s.rows
    ensures RowInvariant(c, DeleteRow(s, row), k)
  {
    var t := DeleteRow(s, row);
    if row == k {
      LineDeletes(s.log, k);
    } else {
      LineSkips(s.log, Deleted(row), k);
    }
    forall i | 0 <= i < |t.workers| ensures ReadFits(c, t, k, i) {
      assert ReadFits(c, s, k, i);
    }
  }

  /** A write of the update of what its line gave makes the extended line's value the row's. */
  lemma WriteExtendsLine(c: Setting, log: seq<Change>, change: Change, k: StoredKey,
                         read: Option<string>)
    requires change.Wrote? && change.row == k
    requires c.update(read, change.turn) == Some(change.summary)
    requires read ==
             ValueOf(c, if change.overtaken then LineBeforeDelete(log, k) else LineOf(log, k), k)
    ensures ValueOf(c, LineOf(log + [change], k), k) == Some(change.summary)
  {
    var line := if change.overtaken then LineBeforeDelete(log, k) else LineOf(log, k);
    LineWrites(log, change, k);
    ValueExtended(c, line, change.turn, k);
  }

  lemma WriteKeepsValue(c: Setting, s: State, k: StoredKey, i: nat, input: Input)
    requires RowInvariant(c, s, k) && WorkersFit(s) && i < |s.workers|
    ensures var t := StepWorkerAt(c.update, s, i, input);
            Row(t.rows, k) == ValueOf(c, LineOf(t.log, k), k)
  {
    var r := Moved(c.update, s, i, input);
    StepReads(c.update, s.workers[i], s.active, s.rows, input);
    if r.write.Some? {
      var w := r.write.value;
      var change := Wrote(w.row, w.turn, w.summary, i in s.overtaken);
      if w.row == k {
        assert ReadFits(c, s, k, i);
        WriteExtendsLine(c, s.log, change, k, Recalls(s.workers[i]).value);
      } else {
        LineSkips(s.log, change, k);
      }
    }
  }

  /** A worker that goes on has read what is there now, or what it had read before. */
  lemma StepKeepsOwnRead(c: Setting, s: State, k: StoredKey, i: nat, input: Input)
    requires WorkersFit(s) && i < |s.workers| && ReadFits(c, s, k, i)
    ensures ReadFits(c, StepWorkerAt(c.update, s, i, input), k, i)
  {
    StepReads(c.update, s.workers[i], s.active, s.rows, input);
  }

  /** A worker's write is kept out of the rows that others have read. */
  lemma StepKeepsOtherReads(c: Setting, s: State, k: StoredKey, i: nat, input: Input, j: nat)
    requires WorkersFit(s) && LocksArePermits(s) && k.channelId.Some?
    requires i < |s.workers| && j < |s.workers| && i != j && ReadFits(c, s, k, j)
    ensures ReadFits(c, StepWorkerAt(c.update, s, i, input), k, j)
  {
    var r := Moved(c.update, s, i, input);
    StepReads(c.update, s.workers[i], s.active, s.rows, input);
    if r.write.Some? {
      var w := r.write.value;
      if w.row == k {
        OthersReadElsewhere(s, i, j, k);
      } else {
        LineSkips(s.log, Wrote(w.row, w.turn, w.summary, i in s.overtaken), k);
      }
    }
  }

  lemma StepKeepsRow(c: Setting, s: State, m: Move, k: StoredKey)
    requires RowInvariant(c, s, k) && WorkersFit(s) && LocksArePermits(s) && k.channelId.Some?
    ensures RowInvariant(c, StepState(c.update, s, m), k)
  {
    match m
    case CleanUp(row) => if row in s.rows { DeleteKeepsRow(c, s, k, row); }
    case Move(i, input) =>
      if i < |s.workers| {
        WriteKeepsValue(c, s, k, i, input);
        forall j | 0 <= j < |s.workers|
          ensures ReadFits(c, StepWorkerAt(c.update, s, i, input), k, j)
        {
          assert ReadFits(c, s, k, j);
          if j == i {
            StepKeepsOwnRead(c, s, k, i, input);
          } else {
            StepKeepsOtherReads(c, s, k, i, input, j);
          }
        }
      }
  }

  lemma {:induction false} WorkersAlwaysFit(c: Setting, moves: seq<Move>)
    ensures WorkersFit(Run(c, moves).0)
  {
    if moves != [] {
      WorkersAlwaysFit(c, moves[..|moves| - 1]);
      StepKeepsWorkers(c.update, Run(c, moves[..|moves| - 1]).0, moves[|moves| - 1]);
    }
  }

  lemma {:induction false} RowsAlwaysFit(c: Setting, moves: seq<Move>, k: StoredKey)
    requires k.channelId.Some?
    ensures RowInvariant(c, Run(c, moves).0, k)
  {
    if moves != [] {
      var before := moves[..|moves| - 1];
      RowsAlwaysFit(c, before, k);
      WorkersAlwaysFit(c, before);
      LocksAlwaysArePermits(c, before);
      StepKeepsRow(c, Run(c, before).0, moves[|moves| - 1], k);
    }
  }

  // ---------------------------------------------------------------- no update is lost

  /**
  In every interleaving of workers and cleanups the stored summary of a conversation with a channel
  is what the turns of its line give, one after the other, from what was stored at first or from
  nothing.
  */
  lemma RowsFollowTheirLine(c: Setting, moves: seq<Move>, k: StoredKey)
    requires k.channelId.Some?
    ensures var s := Run(c, moves).0; Row(s.rows, k) == ValueOf(c, LineOf(s.log, k), k)
  {
    RowsAlwaysFit(c, moves, k);
  }

  /** The turns written for one stored conversation, in the order of the writes. */
  function TurnsTo(log: seq<Change>, k: StoredKey): seq<Turn> {
    if log == [] then []
    else
      var last := log[|log| - 1];
      TurnsTo(log[..|log| - 1], k) + if last.row == k && last.Wrote? then [last.turn] else []
  }

  lemma {:induction false} UndeletedLine(log: seq<Change>, k: StoredKey)
    requires Deleted(k) !in log
    ensures LineOf(log, k) == LineBeforeDelete(log, k) == Line(false, TurnsTo(log, k))
  {
    if log != [] {
      var before := log[..|log| - 1];
      UndeletedLine(before, k);
      assert log[|log| - 1] in log;
    }
  }

  /** No update is lost: as long as the row is not deleted, it holds all its turns in order. */
  lemma NoUpdateIsLost(c: Setting, moves: seq<Move>, k: StoredKey)
    requires k.channelId.Some? && Deleted(k) !in Run(c, moves).0.log
    ensures var s := Run(c, moves).0;
            Row(s.rows, k) == Fold(c.update, Row(c.rows, k), TurnsTo(s.log, k))
  {
    RowsFollowTheirLine(c, moves, k);
    UndeletedLine(Run(c, moves).0.log, k);
  }

  /**
  A dispatch in flight goes on from a deleted summary exactly when the row was deleted after it was
  read; the row is then absent, and the dispatch's write brings the deleted summary back.
  */
  lemma DeletesAreUndoneExactly(c: Setting, moves: seq<Move>, i: nat, k: StoredKey)
    requires k.channelId.Some? && i < |Run(c, moves).0.workers|
    requires Reads(Run(c, moves).0.workers[i], k)
    ensures var s := Run(c, moves).0;
            var read := Recalls(s.workers[i]).value;
            && (read != Row(s.rows, k) <==> i in s.overtaken)
            && (i in s.overtaken ==>
                  && Row(s.rows, k).None? && read.Some?
                  && read == ValueOf(c, LineBeforeDelete(s.log, k), k))
  {
    RowsAlwaysFit(c, moves, k);
    assert ReadFits(c, Run(c, moves).0, k, i);
  }

  // ---------------------------------------------------------------- an undone delete

  lemma RunExtends(c: Setting, moves: seq<Move>, m: Move)
    ensures Run(c, moves + [m]).0 == StepState(c.update, Run(c, moves).0, m)
  {
    assert (moves + [m])[..|moves|] == moves;
  }

  /** One worker, and one stored summary that it may have read. */
  ghost predicate Scene(s: State, w: Worker, k: StoredKey, row: Option<string>) {
    s.workers == [w] && s.overtaken == {} && Row(s.rows, k) == row
    && (WorkOf(w).None? || w.Locking? ==> s.active == {})
  }

  lemma SceneSteps(update: Update, s: State, work: Work, kept: string)
    ensures var k := work.names.stored;
            && (Scene(s, Locking(work), k, Some(kept)) ==>
                  Scene(StepState(update, s, Move(0, Done)), LoadingThread(work), k, Some(kept)))
            && (Scene(s, LoadingThread(work), k, Some(kept)) ==>
                  Scene(StepState(update, s, Move(0, Done)), LoadingSummary(work), k, Some(kept)))
            && (Scene(s, LoadingSummary(work), k, Some(kept)) ==>
                  Scene(StepState(update, s, Move(0, Done)), LoadingContext(work, Some(kept)), k,
                        Some(kept)))
            && (Scene(s, LoadingContext(work, Some(kept)), k, Some(kept)) ==>
                  Scene(StepState(update, s, Move(0, Done)), Running(work, Some(kept)), k,
                        Some(kept)))
  {
  }

  /** The agent answers, the row is deleted, and the update of what was read is written. */
  lemma SceneEnds(update: Update, s: State, work: Work, kept: string)
    requires Scene(s, Running(work, Some(kept)), work.names.stored, Some(kept))
    requires update(Some(kept), Turn(work.message, None)).Some?
    ensures var saving := StepState(update, s, Move(0, AgentOk(None, false)));
            var deleted := StepState(update, saving, CleanUp(work.names.stored));
            var written := StepState(update, deleted, Move(0, Done));
            && Row(deleted.rows, work.names.stored).None?
            && Row(written.rows, work.names.stored) == update(Some(kept), Turn(work.message, None))
  {
    var saving := StepState(update, s, Move(0, AgentOk(None, false)));
    assert saving.workers[0] == SavingSummary(work, Some(kept), Turn(work.message, None));
    var deleted := StepState(update, saving, CleanUp(work.names.stored));
    assert deleted.workers[0] == saving.workers[0];
  }

  lemma SceneOpens(c: Setting, e: ChannelEvent, source: SourceReferences, message: Option<string>,
                   kept: string) returns (moves: seq<Move>)
    requires c.count == 1 && Dispatchable(e)
    requires Row(c.rows, ConversationNames(e, source).stored) == Some(kept)
    ensures var work := Work(0, ConversationNames(e, source), message);
            Scene(Run(c, moves).0, Locking(work), work.names.stored, Some(kept))
  {
    RunExtends(c, [], Move(0, Event(0, e, message)));
    moves := [] + [Move(0, Event(0, e, message))];
    assert Run(c, moves).0.workers[0] == Sourcing(0, e, message);
    RunExtends(c, moves, Move(0, Sourced(source)));
    moves := moves + [Move(0, Sourced(source))];
  }

  /**
  For every update, event and summary there is a run in which the row is deleted and then holds the
  update of the deleted summary again.
  */
  lemma DeleteCanBeUndone(c: Setting, e: ChannelEvent, source: SourceReferences,
                          message: Option<string>, kept: string)
    returns (before: seq<Move>, after: seq<Move>)
    requires c.count == 1 && Dispatchable(e)
    requires Row(c.rows, ConversationNames(e, source).stored) == Some(kept)
    requires c.update(Some(kept), Turn(message, None)).Some?
    ensures var k := ConversationNames(e, source).stored;
            && Row(Run(c, before + [CleanUp(k)]).0.rows, k).None?
            && Row(Run(c, before + [CleanUp(k)] + after).0.rows, k)
               == c.update(Some(kept), Turn(message, None))
  {
    var work := Work(0, ConversationNames(e, source), message);
    var k := work.names.stored;
    before := SceneReachesRun(c, e, source, message, kept);
    SceneEnds(c.update, Run(c, before).0, work, kept);
    RunExtends(c, before, Move(0, AgentOk(None, false)));
    before := before + [Move(0, AgentOk(None, false))];
    RunExtends(c, before, CleanUp(k));
    after := [Move(0, Done)];
    RunExtends(c, before + [CleanUp(k)], Move(0, Done));
  }

  lemma SceneReachesRun(c: Setting, e: ChannelEvent, source: SourceReferences,
                        message: Option<string>, kept: string) returns (moves: seq<Move>)
    requires c.count == 1 && Dispatchable(e)
    requires Row(c.rows, ConversationNames(e, source).stored) == Some(kept)
    ensures var work := Work(0, ConversationNames(e, source), message);
            Scene(Run(c, moves).0, Running(work, Some(kept)), work.names.stored, Some(kept))
  {
    var work := Work(0, ConversationNames(e, source), message);
    moves := SceneOpens(c, e, source, message, kept);
    SceneSteps(c.update, Run(c, moves).0, work, kept);
    RunExtends(c, moves, Move(0, Done));
    moves := moves + [Move(0, Done)];
    SceneSteps(c.update, Run(c, moves).0, work, kept);
    RunExtends(c, moves, Move(0, Done));
    moves := moves + [Move(0, Done)];
    SceneSteps(c.update, Run(c, moves).0, work, kept);
    RunExtends(c, moves, Move(0, Done));
    moves := moves + [Move(0, Done)];
    SceneSteps(c.update, Run(c, moves).0, work, kept);
    RunExtends(c, moves, Move(0, Done));
    moves := moves + [Move(0, Done)];
  }

  // ---------------------------------------------------------------- completed turns

  /** A dispatch reaches its completion with its turn written, unless there was nothing to write. */
  ghost predicate TurnIsWritten(update: Update, w: Worker, r: Stepped)
    requires Recalls(w).Some? && r.worker.Completing?
  {
    exists turn: Turn ::
      && turn.message == r.worker.work.message && turn.reply.Some? == r.worker.draft
      && var updated := update(Recalls(w).value, turn);
         r.write == if updated.None? then None
                    else Some(Write(r.worker.work.names.stored, turn, updated.value))
  }

  lemma CompletingIsWritten(update: Update, w: Worker, active: set<string>,
                            rows: map<StoredKey, string>, input: Input)
    requires EventFits(w) && !w.Completing?
    requires StepWorker(update, w, active, rows, input).worker.Completing?
    ensures Recalls(w).Some? && TurnIsWritten(update, w, StepWorker(update, w, active, rows, input))
  {
    var r := StepWorker(update, w, active, rows, input);
    var turn := if w.Running? then Turn(w.work.message, input.reply) else w.turn;
    assert turn.message == r.worker.work.message && turn.reply.Some? == r.worker.draft;
  }

  /** In every run a worker begins to complete an event only with its turn written. */
  lemma CompletedTurnsAreWritten(c: Setting, moves: seq<Move>, i: nat, input: Input)
    requires var s := Run(c, moves).0;
             && i < |s.workers| && !s.workers[i].Completing?
             && Moved(c.update, s, i, input).worker.Completing?
    ensures var s := Run(c, moves).0;
            Recalls(s.workers[i]).Some?
            && TurnIsWritten(c.update, s.workers[i], Moved(c.update, s, i, input))
  {
    var s := Run(c, moves).0;
    WorkersAlwaysFit(c, moves);
    CompletingIsWritten(c.update, s.workers[i], s.active, s.rows, input);
  }

  // ---------------------------------------------------------------- the summaries themselves

  const UPDATED_SUMMARY: Update := (summary: Option<string>, turn: Turn) =>
    UpdatedSummary(summary, turn.message, turn.reply)

  lemma {:induction false} FoldIsAfterTurns(summary: Option<string>, turns: seq<Turn>)
    ensures Fold(UPDATED_SUMMARY, summary, turns) == AfterTurns(summary, turns)
  {
    if turns != [] {
      FoldIsAfterTurns(summary, turns[..|turns| - 1]);
    }
  }

  /**
  With the program's own update: whatever workers and cleanups do, a conversation's stored summary
  is what the turns of its line give one at a time, and it stays within 2000 bytes and not blank.
  */
  lemma StoredSummariesFollowTheirTurns(c: Setting, moves: seq<Move>, k: StoredKey)
    requires c.update == UPDATED_SUMMARY && k.channelId.Some? && Stored(Row(c.rows, k))
    ensures var s := Run(c, moves).0;
            var line := LineOf(s.log, k);
            && Row(s.rows, k) ==
               AfterTurns(if line.afresh then None else Row(c.rows, k), line.turns)
            && Stored(Row(s.rows, k))
  {
    var line := LineOf(Run(c, moves).0.log, k);
    var start := if line.afresh then None else Row(c.rows, k);
    RowsFollowTheirLine(c, moves, k);
    FoldIsAfterTurns(start, line.turns);
    TurnsKeepTheBound(start, line.turns);
  }
}
