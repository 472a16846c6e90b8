/**
Workers that claim channel events from one queue and share one set of conversation locks. Each
dispatch is a sequence of awaited store calls around one agent run; workers interleave between
them in any order, any store call may fail, and a dispatch may be dropped at any await. The
summaries of the conversations are read before the run and written after it; retention cleanup
deletes aged ones without taking any lock.
*/
module ChannelDispatch {
  import opened MachineInts
  import opened ConversationKeys
  import opened SummaryBound

  // ---------------------------------------------------------------- the lock set

  /** The lock set behind its mutex; a permit is the right to remove its key. */
  class ConversationDispatchLocks {
    var active: set<string>

    constructor ()
      ensures active == {}
    {
      active := {};
    }

    method TryAcquire(key: string) returns (granted: bool)
      modifies this
      ensures granted == (key !in old(active))
      ensures active == Locked(old(active), key)
    {
      granted := key !in active;
      active := active + {key};
    }

    /** Dropping the permit. */
    method Release(key: string)
      modifies this
      ensures active == Unlocked(old(active), key)
    {
      active := active - {key};
    }
  }

  function Locked(active: set<string>, key: string): set<string> { active + {key} }

  function Unlocked(active: set<string>, key: string): set<string> { active - {key} }

  // ---------------------------------------------------------------- one worker

  datatype Outcome =
    | NeverCalled
    | Idle
    | Ignored(id: nat)
    | Dispatched(id: nat)
    | Accepted(id: nat)
    | Failed(id: nat)
    | StoreFailed
    | Dropped

  /** What a dispatch works on once its conversation is known. */
  datatype Work = Work(id: nat, names: Names, message: Option<string>)

  /** What a worker is waiting for. */
  datatype Worker =
    | Resting(outcome: Outcome)
    | Ignoring(id: nat)
    | Sourcing(id: nat, event: ChannelEvent, message: Option<string>)
    | Locking(work: Work)
    | Releasing(id: nat)
    | LoadingThread(work: Work)
    | LoadingSummary(work: Work)
    | LoadingContext(work: Work, summary: Option<string>)
    | Running(work: Work, summary: Option<string>)
    | SavingDraft(work: Work, summary: Option<string>, turn: Turn, thread: bool)
    | SavingThread(work: Work, summary: Option<string>, turn: Turn)
    | SavingSummary(work: Work, summary: Option<string>, turn: Turn)
    | Completing(work: Work, draft: bool)
    | StoppingStream(work: Work)
    | Failing(work: Work)

  /** What a worker that knows its conversation works on. */
  function WorkOf(w: Worker): Option<Work> {
    match w
    case Resting(_) => None
    case Ignoring(_) => None
    case Sourcing(_, _, _) => None
    case Releasing(_) => None
    case _ => Some(w.work)
  }

  /** The key a worker's permit is for, if it holds one. */
  function Permit(w: Worker): Option<string> {
    if w.Locking? || WorkOf(w).None? then None else Some(WorkOf(w).value.names.text)
  }

  /** The summary a worker has read and may still write over, if it is at that stage. */
  function Recalls(w: Worker): Option<Option<string>> {
    match w
    case LoadingContext(_, summary) => Some(summary)
    case Running(_, summary) => Some(summary)
    case SavingDraft(_, summary, _, _) => Some(summary)
    case SavingThread(_, summary, _) => Some(summary)
    case SavingSummary(_, summary, _) => Some(summary)
    case _ => None
  }

  /**
  How the awaited call ends. A drop, or a panic of the agent, ends the whole dispatch. A write
  that fails or is dropped may have taken effect.
  */
  datatype Input =
    | Done
    | StoreError(landed: bool)
    | Drop(landed: bool)
    | NoEvent
    | Event(id: nat, event: ChannelEvent, message: Option<string>)
    | Sourced(source: SourceReferences)
    | AgentOk(reply: Option<string>, thread: bool)
    | AgentError(stream: bool)

  datatype Disposal = Complete | Release | Fail

  /** How the agent's run ended: with a reply, without one, or with an error. */
  datatype Answer = Replied | Silent | Errored

  /** What the rest of the system sees. A disposal call is recorded whether or not it succeeds. */
  datatype Effect =
    | Claimed(claim: Option<nat>)
    | RunStarted(id: nat)
    | Answered(answer: Answer)
    | DisposalCalled(id: nat, how: Disposal)
    | Troubled

  datatype Record = Record(worker: nat, effects: seq<Effect>)

  /** A summary written for a turn of one stored conversation. */
  datatype Write = Write(row: StoredKey, turn: Turn, summary: string)

  /** How a turn changes a summary; nothing is written where it gives nothing. */
  type Update = (Option<string>, Turn) -> Option<string>

  function Row(rows: map<StoredKey, string>, k: StoredKey): Option<string> {
    if k in rows then Some(rows[k]) else None
  }

  datatype Stepped = Stepped(
    worker: Worker,
    active: set<string>,
    effects: seq<Effect>,
    write: Option<Write>
  )

  function Go(w: Worker, active: set<string>): Stepped { Stepped(w, active, [], None) }

  /** Leaving the dispatch drops the permit. */
  function Leave(w: Worker, active: set<string>, outcome: Outcome, effects: seq<Effect>): Stepped {
    var released := if Permit(w).Some? then Unlocked(active, Permit(w).value) else active;
    Stepped(Resting(outcome), released, effects, None)
  }

  /** A disposal call and what it leads to. */
  function Dispose(w: Worker, active: set<string>, input: Input, id: nat, how: Disposal,
                   outcome: Outcome): Stepped
  {
    match input
    case Done => Leave(w, active, outcome, [DisposalCalled(id, how)])
    case StoreError(_) => Leave(w, active, StoreFailed, [DisposalCalled(id, how), Troubled])
    case Drop(_) => Leave(w, active, Dropped, [DisposalCalled(id, how), Troubled])
    case _ => Go(w, active)
  }

  /** Anything else that goes wrong at an await. */
  function Trouble(w: Worker, active: set<string>, input: Input): Stepped {
    match input
    case StoreError(_) => Leave(w, active, StoreFailed, [Troubled])
    case Drop(_) => Leave(w, active, Dropped, [Troubled])
    case _ => Go(w, active)
  }

  function AfterDraft(update: Update, work: Work, summary: Option<string>, turn: Turn, thread: bool)
    : Worker
  {
    if thread then SavingThread(work, summary, turn) else AfterThread(update, work, summary, turn)
  }

  function AfterThread(update: Update, work: Work, summary: Option<string>, turn: Turn): Worker {
    if update(summary, turn).Some? then SavingSummary(work, summary, turn)
    else Completing(work, turn.reply.Some?)
  }

  /** The last write stores the updated summary of what was read before the run. */
  function SaveSummary(update: Update, w: Worker, active: set<string>, input: Input): Stepped
    requires w.SavingSummary?
  {
    var updated := update(w.summary, w.turn);
    var landed := input.Done? || ((input.StoreError? || input.Drop?) && input.landed);
    var next := if input.Done? then Go(Completing(w.work, w.turn.reply.Some?), active)
                else Trouble(w, active, input);
    if landed && updated.Some?
    then next.(write := Some(Write(w.work.names.stored, w.turn, updated.value)))
    else next
  }

  /** From the claim to the lock. */
  function ClaimStep(w: Worker, active: set<string>, input: Input): Stepped {
    match w
    case Resting(_) =>
      (match input
       case NoEvent => Stepped(Resting(Idle), active, [Claimed(None)], None)
       case StoreError(_) => Stepped(Resting(StoreFailed), active, [Claimed(None), Troubled], None)
       case Event(id, event, message) =>
         Stepped(if Dispatchable(event) then Sourcing(id, event, message) else Ignoring(id),
                 active, [Claimed(Some(id))], None)
       case _ => Go(w, active))
    case Ignoring(id) => Dispose(w, active, input, id, Complete, Ignored(id))
    case Sourcing(id, event, message) =>
      if input.Sourced?
      then Go(Locking(Work(id, ConversationNames(event, input.source), message)), active)
      else Trouble(w, active, input)
    case Locking(work) =>
      if work.names.text in active then Go(Releasing(work.id), active)
      else Go(LoadingThread(work), Locked(active, work.names.text))
    case Releasing(id) => Dispose(w, active, input, id, Release, Idle)
    case _ => Go(w, active)
  }

  /** From the lock to the agent's answer. */
  function RunStep(update: Update, w: Worker, active: set<string>, rows: map<StoredKey, string>,
                   input: Input): Stepped
  {
    match w
    case LoadingThread(work) =>
      if input.Done? then Go(LoadingSummary(work), active) else Trouble(w, active, input)
    case LoadingSummary(work) =>
      if input.Done? then Go(LoadingContext(work, Row(rows, work.names.stored)), active)
      else Trouble(w, active, input)
    case LoadingContext(work, summary) =>
      if input.Done? then Stepped(Running(work, summary), active, [RunStarted(work.id)], None)
      else Trouble(w, active, input)
    case Running(work, summary) =>
      (match input
       case AgentOk(reply, thread) =>
         var turn := Turn(work.message, reply);
         Stepped(if reply.Some? then SavingDraft(work, summary, turn, thread)
                 else AfterDraft(update, work, summary, turn, thread),
                 active, [Answered(if reply.Some? then Replied else Silent)], None)
       case AgentError(stream) =>
         Stepped(if stream then StoppingStream(work) else Failing(work), active,
                 [Answered(Errored)], None)
       case Drop(_) => Trouble(w, active, input)
       case _ => Go(w, active))
    case _ => Go(w, active)
  }

  /** From the agent's answer to the end. */
  function SaveStep(update: Update, w: Worker, active: set<string>, input: Input): Stepped {
    match w
    case SavingDraft(work, summary, turn, thread) =>
      if input.Done? then Go(AfterDraft(update, work, summary, turn, thread), active)
      else Trouble(w, active, input)
    case SavingThread(work, summary, turn) =>
      if input.Done? then Go(AfterThread(update, work, summary, turn), active)
      else Trouble(w, active, input)
    case SavingSummary(_, _, _) => SaveSummary(update, w, active, input)
    case Completing(work, draft) =>
      Dispose(w, active, input, work.id, Complete,
              if draft then Dispatched(work.id) else Accepted(work.id))
    case StoppingStream(work) =>
      if input.Drop? then Trouble(w, active, input) else Go(Failing(work), active)
    case Failing(work) => Dispose(w, active, input, work.id, Fail, Failed(work.id))
    case _ => Go(w, active)
  }

  function StepWorker(update: Update, w: Worker, active: set<string>, rows: map<StoredKey, string>,
                      input: Input): Stepped
  {
    if WorkOf(w).None? || w.Locking? then ClaimStep(w, active, input)
    else if w.LoadingThread? || w.LoadingSummary? || w.LoadingContext? || w.Running?
    then RunStep(update, w, active, rows, input)
    else SaveStep(update, w, active, input)
  }

  // ---------------------------------------------------------------- all workers

  /**
  What happened to the stored summaries. A write is overtaken if its row was deleted after its
  dispatch had read it.
  */
  datatype Change =
    | Wrote(row: StoredKey, turn: Turn, summary: string, overtaken: bool)
    | Deleted(row: StoredKey)

  datatype State = State(
    active: set<string>,
    workers: seq<Worker>,
    rows: map<StoredKey, string>,
    log: seq<Change>,
    overtaken: set<nat>
  )

  function Start(count: nat, rows: map<StoredKey, string>): State {
    State({}, seq(count, _ => Resting(NeverCalled)), rows, [], {})
  }

  /**
  One worker's next step, or the deletion of one row; which, and how the worker's call ends, is up
  to the environment.
  */
  datatype Move = Move(worker: nat, input: Input) | CleanUp(row: StoredKey)

  function Moved(update: Update, s: State, i: nat, input: Input): Stepped
    requires i < |s.workers|
  {
    StepWorker(update, s.workers[i], s.active, s.rows, input)
  }

  /** The worker has read this row and may still write over it. */
  predicate Reads(w: Worker, k: StoredKey) {
    Recalls(w).Some? && WorkOf(w).Some? && WorkOf(w).value.names.stored == k
  }

  function StepWorkerAt(update: Update, s: State, i: nat, input: Input): State
    requires i < |s.workers|
  {
    var r := Moved(update, s, i, input);
    var goesOn := Recalls(s.workers[i]).Some? && Recalls(r.worker).Some?;
    var t := s.(active := r.active, workers := s.workers[i := r.worker],
                overtaken := if goesOn then s.overtaken else s.overtaken - {i});
    match r.write
    case None => t
    case Some(w) =>
      t.(rows := s.rows[w.row := w.summary],
         log := s.log + [Wrote(w.row, w.turn, w.summary, i in s.overtaken)])
  }

  /** Deleting a stored row overtakes every dispatch that has read it. */
  function DeleteRow(s: State, k: StoredKey): State {
    if k !in s.rows then s
    else
      s.(rows := s.rows - {k}, log := s.log + [Deleted(k)],
         overtaken := s.overtaken + set i | 0 <= i < |s.workers| && Reads(s.workers[i], k))
  }

  function StepState(update: Update, s: State, m: Move): State {
    match m
    case CleanUp(k) => DeleteRow(s, k)
    case Move(i, input) => if i < |s.workers| then StepWorkerAt(update, s, i, input) else s
  }

  function RecordsOf(update: Update, s: State, m: Move): seq<Record> {
    match m
    case CleanUp(_) => []
    case Move(i, input) =>
      [Record(i, if i < |s.workers| then Moved(update, s, i, input).effects else [])]
  }

  /** A number of workers over some stored summaries. */
  datatype Setting = Setting(update: Update, count: nat, rows: map<StoredKey, string>)

  /** The state and the history after any schedule. */
  function Run(c: Setting, moves: seq<Move>): (State, seq<Record>) {
    if moves == [] then (Start(c.count, c.rows), [])
    else
      var (s, history) := Run(c, moves[..|moves| - 1]);
      var m := moves[|moves| - 1];
      (StepState(c.update, s, m), history + RecordsOf(c.update, s, m))
  }

  // ---------------------------------------------------------------- conversation exclusion

  ghost predicate Holds(s: State, i: nat, key: string) {
    i < |s.workers| && Permit(s.workers[i]) == Some(key)
  }

  /** The lock set is the keys of the live permits, and each key has one. */
  ghost predicate LocksArePermits(s: State) {
    && (forall i, key | Holds(s, i, key) :: key in s.active)
    && (forall key | key in s.active :: exists i :: Holds(s, i, key))
    && (forall i, j, key | Holds(s, i, key) && Holds(s, j, key) :: i == j)
  }

  /** A step takes a free key, gives its own back, or leaves the locks alone. */
  ghost predicate MovesPermit(w: Worker, active: set<string>, r: Stepped) {
    || (Permit(r.worker) == Permit(w) && r.active == active)
    || (&& Permit(w).None? && Permit(r.worker).Some? && Permit(r.worker).value !in active
        && r.active == active + {Permit(r.worker).value})
    || (Permit(w).Some? && Permit(r.worker).None? && r.active == active - {Permit(w).value})
  }

  lemma ClaimMovesPermit(w: Worker, active: set<string>, input: Input)
    ensures MovesPermit(w, active, ClaimStep(w, active, input))
  {
  }

  lemma RunMovesPermit(update: Update, w: Worker, active: set<string>,
                       rows: map<StoredKey, string>, input: Input)
    ensures MovesPermit(w, active, RunStep(update, w, active, rows, input))
  {
  }

  lemma SaveMovesPermit(update: Update, w: Worker, active: set<string>, input: Input)
    ensures MovesPermit(w, active, SaveStep(update, w, active, input))
  {
  }

  lemma StepMovesPermit(update: Update, w: Worker, active: set<string>,
                        rows: map<StoredKey, string>, input: Input)
    ensures MovesPermit(w, active, StepWorker(update, w, active, rows, input))
  {
    ClaimMovesPermit(w, active, input);
    RunMovesPermit(update, w, active, rows, input);
    SaveMovesPermit(update, w, active, input);
  }

  /** Exchanging one worker under such a move keeps the locks and the permits together. */
  lemma MoveKeepsLocks(s: State, t: State, i: nat, r: Stepped)
    requires LocksArePermits(s) && i < |s.workers| && MovesPermit(s.workers[i], s.active, r)
    requires t.active == r.active && t.workers == s.workers[i := r.worker]
    ensures LocksArePermits(t)
  {
    var w := s.workers[i];
    assert Permit(w).Some? ==> Holds(s, i, Permit(w).value);
    forall j, key | j != i ensures Holds(t, j, key) <==> Holds(s, j, key) {
    }
    forall key | key in t.active ensures exists j :: Holds(t, j, key) {
      if key in s.active {
        var j :| Holds(s, j, key);
        assert j != i ==> Holds(t, j, key);
        assert j == i ==> Holds(t, i, key);
      } else {
        assert Holds(t, i, key);
      }
    }
  }

  lemma StepKeepsLocks(update: Update, s: State, m: Move)
    requires LocksArePermits(s)
    ensures LocksArePermits(StepState(update, s, m))
  {
    match m
    case CleanUp(k) =>
      assert forall i, key :: Holds(DeleteRow(s, k), i, key) <==> Holds(s, i, key);
    case Move(i, input) =>
      if i < |s.workers| {
        StepMovesPermit(update, s.workers[i], s.active, s.rows, input);
        MoveKeepsLocks(s, StepState(update, s, m), i, Moved(update, s, i, input));
      }
  }

  /** In every reachable state the lock set is exactly the live permits, one per key. */
  lemma {:induction false} LocksAlwaysArePermits(c: Setting, moves: seq<Move>)
    ensures LocksArePermits(Run(c, moves).0)
  {
    if moves != [] {
      LocksAlwaysArePermits(c, moves[..|moves| - 1]);
      StepKeepsLocks(c.update, Run(c, moves[..|moves| - 1]).0, moves[|moves| - 1]);
    }
  }

  /**
  Two agent runs never share a conversation, and when every worker rests no lock is left behind,
  however the dispatches ended.
  */
  lemma ConversationsAreExclusive(c: Setting, moves: seq<Move>)
    ensures var s := Run(c, moves).0;
            && (forall i, j | 0 <= i < j < |s.workers|
                              && s.workers[i].Running? && s.workers[j].Running? ::
                  s.workers[i].work.names.text != s.workers[j].work.names.text)
            && ((forall i | 0 <= i < |s.workers| :: s.workers[i].Resting?) ==> s.active == {})
  {
    var s := Run(c, moves).0;
    LocksAlwaysArePermits(c, moves);
    forall i, j | 0 <= i < j < |s.workers| && s.workers[i].Running? && s.workers[j].Running?
      ensures s.workers[i].work.names.text != s.workers[j].work.names.text
    {
      assert Holds(s, i, s.workers[i].work.names.text);
      assert Holds(s, j, s.workers[j].work.names.text);
    }
    if forall i | 0 <= i < |s.workers| :: s.workers[i].Resting? {
      assert forall i, key :: !Holds(s, i, key);
    }
  }

  // ---------------------------------------------------------------- single disposal

  /** What one worker did since it last asked the queue for an event. */
  datatype Tally = Tally(
    claim: Option<nat>,
    runs: nat,
    answer: Option<Answer>,
    calls: seq<(nat, Disposal)>,
    trouble: bool
  )

  function Counted(t: Tally, e: Effect): Tally {
    match e
    case Claimed(claim) => Tally(claim, 0, None, [], false)
    case RunStarted(id) => t.(runs := t.runs + 1)
    case Answered(answer) => t.(answer := Some(answer))
    case DisposalCalled(id, how) => t.(calls := t.calls + [(id, how)])
    case Troubled => t.(trouble := true)
  }

  function CountedAll(t: Tally, effects: seq<Effect>): Tally
    decreases |effects|
  {
    if effects == [] then t else CountedAll(Counted(t, effects[0]), effects[1..])
  }

  function TallyOf(history: seq<Record>, worker: nat): Tally {
    if history == [] then Tally(None, 0, None, [], false)
    else
      var before := TallyOf(history[..|history| - 1], worker);
      var last := history[|history| - 1];
      if last.worker == worker then CountedAll(before, last.effects) else before
  }

  /** Where a worker stands tells everything about its claim. */
  ghost predicate Accounts(w: Worker, t: Tally) {
    match w
    case Resting(outcome) => Settled(outcome, t)
    case Ignoring(id) => t == Tally(Some(id), 0, None, [], false)
    case Sourcing(id, _, _) => t == Tally(Some(id), 0, None, [], false)
    case Locking(work) => t == Tally(Some(work.id), 0, None, [], false)
    case Releasing(id) => t == Tally(Some(id), 0, None, [], false)
    case LoadingThread(work) => t == Tally(Some(work.id), 0, None, [], false)
    case LoadingSummary(work) => t == Tally(Some(work.id), 0, None, [], false)
    case LoadingContext(work, _) => t == Tally(Some(work.id), 0, None, [], false)
    case Running(work, _) => t == Tally(Some(work.id), 1, None, [], false)
    case SavingDraft(work, _, turn, _) => t == Tally(Some(work.id), 1, Said(turn), [], false)
    case SavingThread(work, _, turn) => t == Tally(Some(work.id), 1, Said(turn), [], false)
    case SavingSummary(work, _, turn) => t == Tally(Some(work.id), 1, Said(turn), [], false)
    case Completing(work, draft) =>
      t == Tally(Some(work.id), 1, Some(if draft then Replied else Silent), [], false)
    case StoppingStream(work) => t == Tally(Some(work.id), 1, Some(Errored), [], false)
    case Failing(work) => t == Tally(Some(work.id), 1, Some(Errored), [], false)
  }

  function Said(turn: Turn): Option<Answer> {
    Some(if turn.reply.Some? then Replied else Silent)
  }

  /** What the outcome of a dispatch says about the claimed event and the agent's answer. */
  ghost predicate Settled(outcome: Outcome, t: Tally) {
    match outcome
    case NeverCalled => t == Tally(None, 0, None, [], false)
    case Idle =>
      || t == Tally(None, 0, None, [], false)
      || (t.claim.Some? && t == Tally(t.claim, 0, None, [(t.claim.value, Release)], false))
    case Ignored(id) => t == Tally(Some(id), 0, None, [(id, Complete)], false)
    case Dispatched(id) => t == Tally(Some(id), 1, Some(Replied), [(id, Complete)], false)
    case Accepted(id) => t == Tally(Some(id), 1, Some(Silent), [(id, Complete)], false)
    case Failed(id) => t == Tally(Some(id), 1, Some(Errored), [(id, Fail)], false)
    case StoreFailed => Interrupted(t)
    case Dropped => Interrupted(t)
  }

  ghost predicate Interrupted(t: Tally) {
    && t.trouble && t.runs <= 1 && |t.calls| <= 1
    && (t.calls != [] ==> t.claim == Some(t.calls[0].0))
  }

  lemma CountOne(t: Tally, a: Effect)
    ensures CountedAll(t, [a]) == Counted(t, a)
  {
    assert [a][1..] == [];
  }

  lemma CountTwo(t: Tally, a: Effect, b: Effect)
    ensures CountedAll(t, [a, b]) == Counted(Counted(t, a), b)
  {
    assert [a, b][1..] == [b];
    CountOne(Counted(t, a), b);
  }

  lemma CountEffects(t: Tally, effects: seq<Effect>)
    requires |effects| <= 2
    ensures CountedAll(t, effects) ==
            if effects == [] then t
            else if |effects| == 1 then Counted(t, effects[0])
            else Counted(Counted(t, effects[0]), effects[1])
  {
    if |effects| == 1 {
      assert effects == [effects[0]];
      CountOne(t, effects[0]);
    } else if |effects| == 2 {
      assert effects == [effects[0], effects[1]];
      CountTwo(t, effects[0], effects[1]);
    }
  }

  lemma ClaimKeepsAccounts(w: Worker, active: set<string>, input: Input, t: Tally)
    requires Accounts(w, t)
    ensures var r := ClaimStep(w, active, input); Accounts(r.worker, CountedAll(t, r.effects))
  {
    CountEffects(t, ClaimStep(w, active, input).effects);
  }

  lemma RunKeepsAccounts(update: Update, w: Worker, active: set<string>,
                         rows: map<StoredKey, string>, input: Input, t: Tally)
    requires Accounts(w, t)
    ensures var r := RunStep(update, w, active, rows, input);
            Accounts(r.worker, CountedAll(t, r.effects))
  {
    CountEffects(t, RunStep(update, w, active, rows, input).effects);
  }

  lemma SaveKeepsAccounts(update: Update, w: Worker, active: set<string>, input: Input, t: Tally)
    requires Accounts(w, t)
    ensures var r := SaveStep(update, w, active, input);
            Accounts(r.worker, CountedAll(t, r.effects))
  {
    CountEffects(t, SaveStep(update, w, active, input).effects);
  }

  lemma StepKeepsAccounts(update: Update, w: Worker, active: set<string>,
                          rows: map<StoredKey, string>, input: Input, t: Tally)
    requires Accounts(w, t)
    ensures var r := StepWorker(update, w, active, rows, input);
            Accounts(r.worker, CountedAll(t, r.effects))
  {
    ClaimKeepsAccounts(w, active, input, t);
    RunKeepsAccounts(update, w, active, rows, input, t);
    SaveKeepsAccounts(update, w, active, input, t);
  }

  lemma TallyExtends(history: seq<Record>, record: Record, i: nat)
    ensures TallyOf(history + [record], i) ==
            if record.worker == i then CountedAll(TallyOf(history, i), record.effects)
            else TallyOf(history, i)
  {
    assert (history + [record])[..|history|] == history;
  }

  lemma StepAccounts(update: Update, s: State, history: seq<Record>, m: Move, i: nat)
    requires i < |s.workers| && Accounts(s.workers[i], TallyOf(history, i))
    ensures var t := StepState(update, s, m);
            && |t.workers| == |s.workers|
            && Accounts(t.workers[i], TallyOf(history + RecordsOf(update, s, m), i))
  {
    match m
    case CleanUp(_) => assert history + [] == history;
    case Move(j, input) =>
      TallyExtends(history, RecordsOf(update, s, m)[0], i);
      if j == i {
        StepKeepsAccounts(update, s.workers[i], s.active, s.rows, input, TallyOf(history, i));
      }
  }

  lemma {:induction false} WorkersAlwaysAccount(c: Setting, moves: seq<Move>, i: nat)
    requires i < c.count
    ensures var (s, history) := Run(c, moves);
            |s.workers| == c.count && Accounts(s.workers[i], TallyOf(history, i))
  {
    if moves != [] {
      var (s, history) := Run(c, moves[..|moves| - 1]);
      WorkersAlwaysAccount(c, moves[..|moves| - 1], i);
      StepAccounts(c.update, s, history, moves[|moves| - 1], i);
    }
  }

  /**
  In every run and for every worker: the agent runs at most once per claim, at most one disposal
  call is made, for the claimed event; and a dispatch that ends without a store error or a drop
  made exactly one, of the kind its outcome says: a release before any run, a completion after an
  answer, with or without a reply, and a failure after an error of the agent.
  */
  lemma ClaimsAreDisposedOnce(c: Setting, moves: seq<Move>, i: nat)
    requires i < c.count
    ensures var (s, history) := Run(c, moves);
            var t := TallyOf(history, i);
            && |s.workers| == c.count && t.runs <= 1 && |t.calls| <= 1
            && (t.calls != [] ==> t.claim == Some(t.calls[0].0))
            && (s.workers[i].Resting? ==> Settled(s.workers[i].outcome, t))
            && (s.workers[i].Resting? && t.claim.Some? && !t.trouble ==> |t.calls| == 1)
  {
    WorkersAlwaysAccount(c, moves, i);
  }
}
