/**
 The concurrent classification protocol as a transition system. Any number of
 workers run tasks, the broker may deliver a task again or a worker may die, and
 customers, agents and administrators act in between. Transactions are split into
 lock, read, check, insert and commit; a locked read copies the committed row into
 the session, and a commit writes the session's copy back.
 */
module Protocol {
  import opened Domain
  import opened RetryEngine

  type RunId = nat
  type EditId = nat

  /** What can end a run of the task with an exception. */
  datatype TaskError =
    | FromService(error: ServiceError)
    | SqlAlchemyFault
    | ConnectionFault
    | TimeoutFault
    | TicketNotFound
    | UnexpectedFault

  predicate TaskRetryable(e: TaskError) {
    match e
    case FromService(s) => RetryableService(s) || s == Provider(TimedOut) || s == Provider(ConnectionBroken)
    case SqlAlchemyFault => true
    case ConnectionFault => true
    case TimeoutFault => true
    case TicketNotFound => false
    case UnexpectedFault => false
  }

  /** The errors of a whole classification that another delivery may not meet again. */
  ghost predicate Passing(e: TaskError) {
    || e == SqlAlchemyFault || e == ConnectionFault || e == TimeoutFault
    || e == FromService(Provider(ConnectionBroken))
  }

  /** How much recording this error adds to the ticket's retry count. */
  function RetryIncrement(e: TaskError): nat {
    if e.FromService? && (e.error.RetriesExhausted? || e.error.AllModelsFailed?)
    then if e.error.attempts == 0 then 0 else e.error.attempts - 1
    else 1
  }

  /** Inline processing never retries; a Celery task does while it has retries left. */
  predicate WillRetry(cfg: Settings, task: TaskId, retries: nat, e: TaskError) {
    task.Celery? && TaskRetryable(e) && retries < cfg.taskMaxRetries
  }

  datatype Owner = ByRun(run: RunId) | ByEdit(edit: EditId)

  /** The database: committed rows, row locks and dead letters in insertion order. */
  datatype Shared = Shared(rows: map<TicketId, Row>, locks: map<TicketId, Owner>, dead: seq<DeadLetter>)

  /** Where a run of the task stands; mine is the session's copy of the locked row. */
  datatype Pc =
    | Queued
    | Claiming(mine: Row)
    | Classifying
    | HasResult(result: Result)
    | Finalising(result: Result, mine: Row)
    | Refreshing
    | Failing(error: TaskError)
    | Recording(error: TaskError, mine: Row)
    | Inserting(error: TaskError, mine: Row, found: bool)
    | Recorded(error: TaskError)
    | Done
    | Retried(error: TaskError)
    | Ended(error: TaskError)
    | Lost

  /** One delivery of a task; calls counts the provider calls it has made. */
  datatype Run = Run(task: TaskId, ticket: TicketId, retries: nat, calls: nat, pc: Pc)

  datatype Edit = Edit(ticket: TicketId, kind: EditKind, mine: Row, open: bool)

  /** What a run has committed to a ticket's retry count. */
  datatype Entry =
    | Completion(run: RunId, ticket: TicketId, result: Result, ms: nat)
    | FailureRecord(run: RunId, ticket: TicketId, error: TaskError, willRetry: bool)

  function Increment(e: Entry): nat {
    match e
    case Completion(_, _, result, _) => result.attempts - 1
    case FailureRecord(_, _, error, _) => RetryIncrement(error)
  }

  /**
   The runs and edits are numbered in the order they start. The last five fields only
   record history: committed increments, tickets whose status an agent set, tickets whose
   classification an agent corrected, tickets whose final failure was not persisted or
   whose inline request died, and tasks that the broker delivered more than once.
   */
  datatype State = State(
    db: Shared,
    runs: seq<Run>,
    edits: seq<Edit>,
    tasks: map<TaskId, TicketId>,
    ledger: seq<Entry>,
    statusEdited: set<TicketId>,
    corrected: set<TicketId>,
    lost: set<TicketId>,
    redelivered: set<TaskId>)

  const INIT := State(Shared(map[], map[], []), [], [], map[], [], {}, {}, {}, {})

  predicate Locked(pc: Pc) {
    pc.Claiming? || pc.Finalising? || pc.Recording? || pc.Inserting?
  }

  predicate Finished(pc: Pc) {
    pc.Done? || pc.Retried? || pc.Ended? || pc.Lost?
  }

  /** The run is inside the failure-recording transaction, whose exceptions are swallowed. */
  predicate RecordingFailure(pc: Pc) {
    pc.Failing? || pc.Recording? || pc.Inserting?
  }

  datatype Action =
    | CreateTicket(t: TicketId, title: string, description: string, createdAt: nat, customer: Option<UserId>)
    | Dispatch(t: TicketId, n: nat)
    | StartInline(t: TicketId)
    | LockClaim(r: RunId)
    | CommitClaim(r: RunId)
    | Classify(r: RunId, script: seq<Outcome>)
    | ClassifyLocally(r: RunId, classification: Classification)
    | LockFinal(r: RunId)
    | CommitFinal(r: RunId, ms: nat)
    | Refresh(r: RunId)
    | LockRecord(r: RunId)
    | Record(r: RunId)
    | Insert(r: RunId)
    | DatabaseFault(r: RunId, fault: TaskError, calls: nat)
    | Decide(r: RunId)
    | Crash(r: RunId, calls: nat)
    | Redeliver(r: RunId)
    | OpenEdit(t: TicketId, kind: EditKind)
    | CommitEdit(e: EditId)
    | AbortEdit(e: EditId)

  predicate CanFault(pc: Pc) {
    !Finished(pc) && !pc.Recorded?
  }

  /** Only a classification that is cut short has made provider calls that are not counted yet. */
  predicate CallsCutShort(cfg: Settings, pc: Pc, calls: nat) {
    calls <= if pc.Classifying? then 2 * cfg.maxAttempts else 0
  }

  predicate Enabled(cfg: Settings, s: State, a: Action) {
    match a
    case CreateTicket(t, _, _, _, _) => t !in s.db.rows
    case Dispatch(t, n) => t in s.db.rows && Celery(n) !in s.tasks
    case StartInline(t) => t in s.db.rows && Inline(t) !in s.tasks
    case LockClaim(r) => r < |s.runs| && s.runs[r].pc.Queued? && s.runs[r].ticket !in s.db.locks
    case CommitClaim(r) => r < |s.runs| && s.runs[r].pc.Claiming?
    case Classify(r, script) => r < |s.runs| && s.runs[r].pc.Classifying? && 2 * cfg.maxAttempts <= |script|
    case ClassifyLocally(r, _) => r < |s.runs| && s.runs[r].pc.Classifying?
    case LockFinal(r) => r < |s.runs| && s.runs[r].pc.HasResult? && s.runs[r].ticket !in s.db.locks
    case CommitFinal(r, _) => r < |s.runs| && s.runs[r].pc.Finalising?
    case Refresh(r) => r < |s.runs| && s.runs[r].pc.Refreshing?
    case LockRecord(r) => r < |s.runs| && s.runs[r].pc.Failing? && s.runs[r].ticket !in s.db.locks
    case Record(r) => r < |s.runs| && s.runs[r].pc.Recording?
    case Insert(r) => r < |s.runs| && s.runs[r].pc.Inserting?
    case DatabaseFault(r, fault, calls) =>
      && r < |s.runs| && CanFault(s.runs[r].pc) && CallsCutShort(cfg, s.runs[r].pc, calls)
      && !fault.FromService? && !fault.TicketNotFound?
    case Decide(r) => r < |s.runs| && s.runs[r].pc.Recorded?
    case Crash(r, calls) => r < |s.runs| && !Finished(s.runs[r].pc) && CallsCutShort(cfg, s.runs[r].pc, calls)
    case Redeliver(r) => r < |s.runs| && s.runs[r].task.Celery?
    case OpenEdit(t, _) => t in s.db.rows && t !in s.db.locks
    case CommitEdit(e) => e < |s.edits| && s.edits[e].open
    case AbortEdit(e) => e < |s.edits| && s.edits[e].open
  }

  // ---------- primitive transitions ----------

  function WithPc(s: State, r: RunId, pc: Pc): State
    requires r < |s.runs|
  {
    s.(runs := s.runs[r := s.runs[r].(pc := pc)])
  }

  function WithCalls(s: State, r: RunId, calls: nat): State
    requires r < |s.runs|
  {
    s.(runs := s.runs[r := s.runs[r].(calls := s.runs[r].calls + calls)])
  }

  /** Take the row lock and move to a program point that holds it. */
  function Acquire(s: State, r: RunId, pc: Pc): State
    requires r < |s.runs|
  {
    WithPc(s.(db := s.db.(locks := s.db.locks[s.runs[r].ticket := ByRun(r)])), r, pc)
  }

  /** End the run's transaction without effect; the lock is released if it was held. */
  function Rollback(s: State, r: RunId, pc: Pc): State
    requires r < |s.runs|
  {
    var locks := if Locked(s.runs[r].pc) then s.db.locks - {s.runs[r].ticket} else s.db.locks;
    WithPc(s.(db := s.db.(locks := locks)), r, pc)
  }

  /** Write the row and the new dead letters, note the committed increments, release the lock. */
  function Commit(s: State, r: RunId, pc: Pc, row: Row, letters: seq<DeadLetter>, entries: seq<Entry>): State
    requires r < |s.runs|
  {
    var t := s.runs[r].ticket;
    WithPc(s.(db := Shared(s.db.rows[t := row], s.db.locks - {t}, s.db.dead + letters),
              ledger := s.ledger + entries), r, pc)
  }

  /** Put a delivery of the task on the queue. */
  function Publish(s: State, task: TaskId, ticket: TicketId, retries: nat): State {
    s.(runs := s.runs + [Run(task, ticket, retries, 0, Queued)])
  }

  // ---------- one step of a run ----------

  function AfterLock(s: State, r: RunId): State
    requires r < |s.runs|
    requires var pc := s.runs[r].pc; pc.Queued? || pc.HasResult? || pc.Failing?
  {
    var t := s.runs[r].ticket;
    match s.runs[r].pc
    case Queued =>
      if t in s.db.rows then Acquire(s, r, Claiming(s.db.rows[t])) else WithPc(s, r, Failing(TicketNotFound))
    case HasResult(result) =>
      if t in s.db.rows then Acquire(s, r, Finalising(result, s.db.rows[t])) else WithPc(s, r, Failing(TicketNotFound))
    case Failing(error) =>
      if t in s.db.rows then Acquire(s, r, Recording(error, s.db.rows[t])) else WithPc(s, r, Recorded(error))
  }

  function AfterClaim(s: State, r: RunId): State
    requires r < |s.runs| && s.runs[r].pc.Claiming?
  {
    var mine := s.runs[r].pc.mine;
    if mine.status == Complete then Rollback(s, r, Done)
    else Commit(s, r, Classifying, mine.(status := Processing), [], [])
  }

  function AfterClassify(cfg: Settings, s: State, r: RunId, script: seq<Outcome>): State
    requires ValidSettings(cfg) && 2 * cfg.maxAttempts <= |script|
    requires r < |s.runs|
  {
    var pc := match Scan(cfg, script)
      case Success(result) => HasResult(result)
      case Failure(e) => Failing(FromService(e));
    s.(runs := s.runs[r := s.runs[r].(calls := CallsMade(cfg, script), pc := pc)])
  }

  const LOCAL_MODEL := "local-rule-fallback-v1"

  function LocalResult(c: Classification): Result {
    Result(c, LOCAL_MODEL, 0, 0.0, 1)
  }

  /** The committed ticket is read once more before the workflow returns it, where it can still fail. */
  function AfterFinal(s: State, r: RunId, ms: nat): State
    requires r < |s.runs| && s.runs[r].pc.Finalising?
  {
    var pc, t := s.runs[r].pc, s.runs[r].ticket;
    if pc.mine.status == Complete then Rollback(s, r, Done)
    else Commit(s, r, Refreshing, CompletedRow(pc.mine, pc.result, ms), [], [Completion(r, t, pc.result, ms)])
  }

  /** The status check, the session's changes, and either the commit or the search for an existing letter. */
  function AfterRecord(cfg: Settings, s: State, r: RunId): State
    requires r < |s.runs| && s.runs[r].pc.Recording?
  {
    var run := s.runs[r];
    var error, mine := run.pc.error, run.pc.mine;
    var willRetry := WillRetry(cfg, run.task, run.retries, error);
    var row := FailedRow(mine, RetryIncrement(error), willRetry);
    if mine.status == Complete then Rollback(s, r, Recorded(error))
    else if willRetry then
      Commit(s, r, Recorded(error), row, [], [FailureRecord(r, run.ticket, error, true)])
    else WithPc(s, r, Inserting(error, row, HasLetter(s.db.dead, run.task)))
  }

  function AfterInsert(s: State, r: RunId): State
    requires r < |s.runs| && s.runs[r].pc.Inserting?
  {
    var run := s.runs[r];
    var letter := DeadLetter(run.ticket, run.task, Max(run.retries, run.pc.mine.retryCount));
    Commit(s, r, Recorded(run.pc.error), run.pc.mine, if run.pc.found then [] else [letter],
           [FailureRecord(r, run.ticket, run.pc.error, false)])
  }

  /** An exception from the database: the workflow starts recording it, the recording swallows it. */
  function AfterFault(cfg: Settings, s: State, r: RunId, fault: TaskError): State
    requires r < |s.runs|
  {
    var run := s.runs[r];
    if RecordingFailure(run.pc) then
      var willRetry := WillRetry(cfg, run.task, run.retries, run.pc.error);
      Rollback(s, r, Recorded(run.pc.error)).(lost := if willRetry then s.lost else s.lost + {run.ticket})
    else Rollback(s, r, Failing(fault))
  }

  function AfterDecide(cfg: Settings, s: State, r: RunId): State
    requires r < |s.runs| && s.runs[r].pc.Recorded?
  {
    var run := s.runs[r];
    if WillRetry(cfg, run.task, run.retries, run.pc.error)
    then Publish(WithPc(s, r, Retried(run.pc.error)), run.task, run.ticket, run.retries + 1)
    else WithPc(s, r, Ended(run.pc.error))
  }

  /** The worker dies: an unacknowledged Celery task is delivered again, an inline request is gone. */
  function AfterCrash(s: State, r: RunId): State
    requires r < |s.runs|
  {
    var run := s.runs[r];
    var s' := Rollback(s, r, Lost);
    if run.task.Celery?
    then Publish(s', run.task, run.ticket, run.retries).(redelivered := s.redelivered + {run.task})
    else s'.(lost := s.lost + {run.ticket})
  }

  function AfterRedeliver(s: State, r: RunId): State
    requires r < |s.runs|
  {
    var run := s.runs[r];
    Publish(s, run.task, run.ticket, run.retries).(redelivered := s.redelivered + {run.task})
  }

  // ---------- one step of intake, agents and administrators ----------

  function AfterCreate(s: State, t: TicketId, row: Row): State {
    s.(db := s.db.(rows := s.db.rows[t := row]))
  }

  function AfterDispatch(s: State, task: TaskId, t: TicketId): State {
    Publish(s.(tasks := s.tasks[task := t]), task, t, 0)
  }

  function AfterOpen(s: State, t: TicketId, kind: EditKind): State
    requires t in s.db.rows
  {
    s.(edits := s.edits + [Edit(t, kind, s.db.rows[t], true)],
       db := s.db.(locks := s.db.locks[t := ByEdit(|s.edits|)]))
  }

  function AfterEdit(s: State, e: EditId, commit: bool): State
    requires e < |s.edits|
  {
    var edit := s.edits[e];
    var t := edit.ticket;
    var s' := s.(edits := s.edits[e := edit.(open := false)],
                 db := s.db.(locks := s.db.locks - {t},
                             rows := if commit then s.db.rows[t := EditedRow(edit.mine, edit.kind)] else s.db.rows));
    if !commit then s'
    else s'.(statusEdited := if edit.kind.SetStatus? then s.statusEdited + {t} else s.statusEdited,
             corrected := if edit.kind.Correct? then s.corrected + {t} else s.corrected)
  }

  function Apply(cfg: Settings, s: State, a: Action): State
    requires ValidSettings(cfg) && Enabled(cfg, s, a)
  {
    match a
    case CreateTicket(t, title, description, createdAt, customer) =>
      AfterCreate(s, t, NewRow(title, description, createdAt, customer))
    case Dispatch(t, n) => AfterDispatch(s, Celery(n), t)
    case StartInline(t) => AfterDispatch(s, Inline(t), t)
    case LockClaim(r) => AfterLock(s, r)
    case CommitClaim(r) => AfterClaim(s, r)
    case Classify(r, script) => AfterClassify(cfg, s, r, script)
    case ClassifyLocally(r, c) => WithPc(s, r, HasResult(LocalResult(c)))
    case LockFinal(r) => AfterLock(s, r)
    case CommitFinal(r, ms) => AfterFinal(s, r, ms)
    case Refresh(r) => WithPc(s, r, Done)
    case LockRecord(r) => AfterLock(s, r)
    case Record(r) => AfterRecord(cfg, s, r)
    case Insert(r) => AfterInsert(s, r)
    case DatabaseFault(r, fault, calls) => AfterFault(cfg, WithCalls(s, r, calls), r, fault)
    case Decide(r) => AfterDecide(cfg, s, r)
    case Crash(r, calls) => AfterCrash(WithCalls(s, r, calls), r)
    case Redeliver(r) => AfterRedeliver(s, r)
    case OpenEdit(t, kind) => AfterOpen(s, t, kind)
    case CommitEdit(e) => AfterEdit(s, e, true)
    case AbortEdit(e) => AfterEdit(s, e, false)
  }

  ghost predicate Next(cfg: Settings, s: State, a: Action, s': State)
    requires ValidSettings(cfg)
  {
    Enabled(cfg, s, a) && s' == Apply(cfg, s, a)
  }

  /** The states of a run of the whole system, with the action taken between each two. */
  ghost predicate Behaviour(cfg: Settings, trace: seq<State>, actions: seq<Action>)
    requires ValidSettings(cfg)
  {
    && |trace| == |actions| + 1
    && trace[0] == INIT
    && forall i :: 0 <= i < |actions| ==> Next(cfg, trace[i], actions[i], trace[i + 1])
  }

  /** Steps that a worker or inline request takes on its own run, its death included. */
  predicate WorkerAction(a: Action) {
    match a
    case LockClaim(_) => true
    case CommitClaim(_) => true
    case Classify(_, _) => true
    case ClassifyLocally(_, _) => true
    case LockFinal(_) => true
    case CommitFinal(_, _) => true
    case Refresh(_) => true
    case LockRecord(_) => true
    case Record(_) => true
    case Insert(_) => true
    case DatabaseFault(_, _, _) => true
    case Decide(_) => true
    case Crash(_, _) => true
    case _ => false
  }

  /** Steps of agents and administrators. */
  predicate EditAction(a: Action) {
    a.OpenEdit? || a.CommitEdit? || a.AbortEdit?
  }
}
