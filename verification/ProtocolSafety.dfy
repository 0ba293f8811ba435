/** What every step of the classification protocol keeps. */
module ProtocolSafety {
  import opened Domain
  import opened RetryEngine
  import opened Protocol

  // ---------- lock discipline ----------

  /** Every run, edit and task id refers to a committed ticket, and a task id always to the same one. */
  ghost predicate References(cfg: Settings, s: State) {
    && (forall r {:trigger s.runs[r]} :: 0 <= r < |s.runs| ==>
          && s.runs[r].task in s.tasks && s.tasks[s.runs[r].task] == s.runs[r].ticket
          && s.runs[r].ticket in s.db.rows
          && s.runs[r].retries <= cfg.taskMaxRetries)
    && (forall e {:trigger s.edits[e]} :: 0 <= e < |s.edits| ==> s.edits[e].ticket in s.db.rows)
    && (forall task {:trigger task in s.tasks} :: task in s.tasks ==> s.tasks[task] in s.db.rows)
  }

  /** A lock has exactly the owner whose transaction is open on that row. */
  ghost predicate LockOwners(s: State) {
    && (forall r {:trigger s.runs[r]} :: 0 <= r < |s.runs| && Locked(s.runs[r].pc) ==>
          s.runs[r].ticket in s.db.locks && s.db.locks[s.runs[r].ticket] == ByRun(r))
    && (forall e {:trigger s.edits[e]} :: 0 <= e < |s.edits| && s.edits[e].open ==>
          s.edits[e].ticket in s.db.locks && s.db.locks[s.edits[e].ticket] == ByEdit(e))
    && (forall t {:trigger t in s.db.locks} :: t in s.db.locks ==>
          match s.db.locks[t]
          case ByRun(r) => r < |s.runs| && s.runs[r].ticket == t && Locked(s.runs[r].pc)
          case ByEdit(e) => e < |s.edits| && s.edits[e].ticket == t && s.edits[e].open)
  }

  /** The copy that an open transaction works on is still the committed row, up to its own changes. */
  ghost predicate Snapshot(cfg: Settings, s: State, run: Run)
    requires run.ticket in s.db.rows
  {
    var row := s.db.rows[run.ticket];
    match run.pc
    case Claiming(mine) => mine == row
    case Finalising(_, mine) => mine == row
    case Recording(_, mine) => mine == row
    case Inserting(error, mine, found) =>
      && row.status != Complete
      && !WillRetry(cfg, run.task, run.retries, error)
      && mine == FailedRow(row, RetryIncrement(error), false)
    case _ => true
  }

  ghost predicate Snapshots(cfg: Settings, s: State)
    requires References(cfg, s)
  {
    && (forall r {:trigger s.runs[r]} :: 0 <= r < |s.runs| ==> Snapshot(cfg, s, s.runs[r]))
    && (forall e {:trigger s.edits[e]} :: 0 <= e < |s.edits| && s.edits[e].open ==>
          s.edits[e].mine == s.db.rows[s.edits[e].ticket])
  }

  ghost predicate LockDiscipline(cfg: Settings, s: State) {
    References(cfg, s) && LockOwners(s) && Snapshots(cfg, s)
  }

  lemma AcquireKeepsDiscipline(cfg: Settings, s: State, r: RunId, pc: Pc)
    requires LockDiscipline(cfg, s) && r < |s.runs| && s.runs[r].ticket !in s.db.locks
    requires Locked(pc) && Snapshot(cfg, s, s.runs[r].(pc := pc))
    ensures LockDiscipline(cfg, Acquire(s, r, pc))
  {
  }

  lemma MoveKeepsDiscipline(cfg: Settings, s: State, r: RunId, pc: Pc)
    requires LockDiscipline(cfg, s) && r < |s.runs|
    requires Locked(pc) == Locked(s.runs[r].pc) && Snapshot(cfg, s, s.runs[r].(pc := pc))
    ensures LockDiscipline(cfg, WithPc(s, r, pc))
  {
  }

  lemma RollbackKeepsDiscipline(cfg: Settings, s: State, r: RunId, pc: Pc)
    requires LockDiscipline(cfg, s) && r < |s.runs| && !Locked(pc)
    ensures LockDiscipline(cfg, Rollback(s, r, pc))
  {
  }

  lemma CommitKeepsDiscipline(cfg: Settings, s: State, r: RunId, pc: Pc, row: Row,
                              letters: seq<DeadLetter>, entries: seq<Entry>)
    requires LockDiscipline(cfg, s) && r < |s.runs| && Locked(s.runs[r].pc) && !Locked(pc)
    ensures LockDiscipline(cfg, Commit(s, r, pc, row, letters, entries))
  {
  }

  lemma PublishKeepsDiscipline(cfg: Settings, s: State, task: TaskId, ticket: TicketId, retries: nat)
    requires LockDiscipline(cfg, s)
    requires task in s.tasks && s.tasks[task] == ticket && retries <= cfg.taskMaxRetries
    ensures LockDiscipline(cfg, Publish(s, task, ticket, retries))
  {
  }

  lemma EditKeepsDiscipline(cfg: Settings, s: State, e: EditId, commit: bool)
    requires LockDiscipline(cfg, s) && e < |s.edits| && s.edits[e].open
    ensures LockDiscipline(cfg, AfterEdit(s, e, commit))
  {
  }

  lemma LockKeepsDiscipline(cfg: Settings, s: State, r: RunId)
    requires LockDiscipline(cfg, s) && r < |s.runs| && s.runs[r].ticket !in s.db.locks
    requires var pc := s.runs[r].pc; pc.Queued? || pc.HasResult? || pc.Failing?
    ensures LockDiscipline(cfg, AfterLock(s, r))
  {
    var row := s.db.rows[s.runs[r].ticket];
    match s.runs[r].pc
    case Queued => AcquireKeepsDiscipline(cfg, s, r, Claiming(row));
    case HasResult(result) => AcquireKeepsDiscipline(cfg, s, r, Finalising(result, row));
    case Failing(error) => AcquireKeepsDiscipline(cfg, s, r, Recording(error, row));
  }

  lemma ClaimKeepsDiscipline(cfg: Settings, s: State, r: RunId)
    requires LockDiscipline(cfg, s) && r < |s.runs| && s.runs[r].pc.Claiming?
    ensures LockDiscipline(cfg, AfterClaim(s, r))
  {
    var mine := s.runs[r].pc.mine;
    if mine.status == Complete {
      RollbackKeepsDiscipline(cfg, s, r, Done);
    } else {
      CommitKeepsDiscipline(cfg, s, r, Classifying, mine.(status := Processing), [], []);
    }
  }

  lemma ClassifyKeepsDiscipline(cfg: Settings, s: State, r: RunId, script: seq<Outcome>)
    requires ValidSettings(cfg) && 2 * cfg.maxAttempts <= |script|
    requires LockDiscipline(cfg, s) && r < |s.runs| && s.runs[r].pc.Classifying?
    ensures LockDiscipline(cfg, AfterClassify(cfg, s, r, script))
  {
  }

  lemma FinalKeepsDiscipline(cfg: Settings, s: State, r: RunId, ms: nat)
    requires LockDiscipline(cfg, s) && r < |s.runs| && s.runs[r].pc.Finalising?
    ensures LockDiscipline(cfg, AfterFinal(s, r, ms))
  {
    var pc := s.runs[r].pc;
    if pc.mine.status == Complete {
      RollbackKeepsDiscipline(cfg, s, r, Done);
    } else {
      CommitKeepsDiscipline(cfg, s, r, Refreshing, CompletedRow(pc.mine, pc.result, ms), [],
                            [Completion(r, s.runs[r].ticket, pc.result, ms)]);
    }
  }

  lemma RecordKeepsDiscipline(cfg: Settings, s: State, r: RunId)
    requires LockDiscipline(cfg, s) && r < |s.runs| && s.runs[r].pc.Recording?
    ensures LockDiscipline(cfg, AfterRecord(cfg, s, r))
  {
    var run := s.runs[r];
    var error, mine := run.pc.error, run.pc.mine;
    var willRetry := WillRetry(cfg, run.task, run.retries, error);
    var row := FailedRow(mine, RetryIncrement(error), willRetry);
    if mine.status == Complete {
      RollbackKeepsDiscipline(cfg, s, r, Recorded(error));
    } else if willRetry {
      CommitKeepsDiscipline(cfg, s, r, Recorded(error), row, [], [FailureRecord(r, run.ticket, error, true)]);
    } else {
      MoveKeepsDiscipline(cfg, s, r, Inserting(error, row, HasLetter(s.db.dead, run.task)));
    }
  }

  lemma InsertKeepsDiscipline(cfg: Settings, s: State, r: RunId)
    requires LockDiscipline(cfg, s) && r < |s.runs| && s.runs[r].pc.Inserting?
    ensures LockDiscipline(cfg, AfterInsert(s, r))
  {
    var run := s.runs[r];
    var letter := DeadLetter(run.ticket, run.task, Max(run.retries, run.pc.mine.retryCount));
    CommitKeepsDiscipline(cfg, s, r, Recorded(run.pc.error), run.pc.mine, if run.pc.found then [] else [letter],
                          [FailureRecord(r, run.ticket, run.pc.error, false)]);
  }

  lemma CallsKeepDiscipline(cfg: Settings, s: State, r: RunId, calls: nat)
    requires LockDiscipline(cfg, s) && r < |s.runs|
    ensures LockDiscipline(cfg, WithCalls(s, r, calls))
  {
  }

  lemma FaultKeepsDiscipline(cfg: Settings, s: State, r: RunId, fault: TaskError)
    requires LockDiscipline(cfg, s) && r < |s.runs|
    ensures LockDiscipline(cfg, AfterFault(cfg, s, r, fault))
  {
    var pc := s.runs[r].pc;
    RollbackKeepsDiscipline(cfg, s, r, if RecordingFailure(pc) then Recorded(pc.error) else Failing(fault));
  }

  lemma DecideKeepsDiscipline(cfg: Settings, s: State, r: RunId)
    requires LockDiscipline(cfg, s) && r < |s.runs| && s.runs[r].pc.Recorded?
    ensures LockDiscipline(cfg, AfterDecide(cfg, s, r))
  {
    var run := s.runs[r];
    if WillRetry(cfg, run.task, run.retries, run.pc.error) {
      MoveKeepsDiscipline(cfg, s, r, Retried(run.pc.error));
      PublishKeepsDiscipline(cfg, WithPc(s, r, Retried(run.pc.error)), run.task, run.ticket, run.retries + 1);
    } else {
      MoveKeepsDiscipline(cfg, s, r, Ended(run.pc.error));
    }
  }

  lemma CrashKeepsDiscipline(cfg: Settings, s: State, r: RunId)
    requires LockDiscipline(cfg, s) && r < |s.runs|
    ensures LockDiscipline(cfg, AfterCrash(s, r))
  {
    var run := s.runs[r];
    RollbackKeepsDiscipline(cfg, s, r, Lost);
    if run.task.Celery? {
      PublishKeepsDiscipline(cfg, Rollback(s, r, Lost), run.task, run.ticket, run.retries);
    }
  }

  lemma CreateKeepsDiscipline(cfg: Settings, s: State, t: TicketId, row: Row)
    requires LockDiscipline(cfg, s) && t !in s.db.rows
    ensures LockDiscipline(cfg, AfterCreate(s, t, row))
  {
  }

  lemma DispatchKeepsDiscipline(cfg: Settings, s: State, task: TaskId, t: TicketId)
    requires LockDiscipline(cfg, s) && task !in s.tasks && t in s.db.rows
    ensures LockDiscipline(cfg, AfterDispatch(s, task, t))
  {
    PublishKeepsDiscipline(cfg, s.(tasks := s.tasks[task := t]), task, t, 0);
  }

  lemma RedeliverKeepsDiscipline(cfg: Settings, s: State, r: RunId)
    requires LockDiscipline(cfg, s) && r < |s.runs|
    ensures LockDiscipline(cfg, AfterRedeliver(s, r))
  {
  }

  lemma OpenEditKeepsDiscipline(cfg: Settings, s: State, t: TicketId, kind: EditKind)
    requires LockDiscipline(cfg, s) && t in s.db.rows && t !in s.db.locks
    ensures LockDiscipline(cfg, AfterOpen(s, t, kind))
  {
  }

  lemma ClassifyingKeepsDiscipline(cfg: Settings, s: State, a: Action)
    requires ValidSettings(cfg) && LockDiscipline(cfg, s) && Enabled(cfg, s, a) && ClassifyingStep(a)
    ensures LockDiscipline(cfg, Apply(cfg, s, a))
  {
    match a
    case LockClaim(r) => LockKeepsDiscipline(cfg, s, r);
    case CommitClaim(r) => ClaimKeepsDiscipline(cfg, s, r);
    case Classify(r, script) => ClassifyKeepsDiscipline(cfg, s, r, script);
    case ClassifyLocally(r, c) => MoveKeepsDiscipline(cfg, s, r, HasResult(LocalResult(c)));
    case LockFinal(r) => LockKeepsDiscipline(cfg, s, r);
    case CommitFinal(r, ms) => FinalKeepsDiscipline(cfg, s, r, ms);
    case Refresh(r) => MoveKeepsDiscipline(cfg, s, r, Done);
  }

  lemma RecordingKeepsDiscipline(cfg: Settings, s: State, a: Action)
    requires ValidSettings(cfg) && LockDiscipline(cfg, s) && Enabled(cfg, s, a) && WorkerAction(a) && !ClassifyingStep(a)
    ensures LockDiscipline(cfg, Apply(cfg, s, a))
  {
    hide LockDiscipline;
    match a
    case LockRecord(r) => LockKeepsDiscipline(cfg, s, r);
    case Record(r) => RecordKeepsDiscipline(cfg, s, r);
    case Insert(r) => InsertKeepsDiscipline(cfg, s, r);
    case DatabaseFault(r, fault, calls) =>
      CallsKeepDiscipline(cfg, s, r, calls);
      FaultKeepsDiscipline(cfg, WithCalls(s, r, calls), r, fault);
    case Decide(r) => DecideKeepsDiscipline(cfg, s, r);
    case Crash(r, calls) =>
      CallsKeepDiscipline(cfg, s, r, calls);
      CrashKeepsDiscipline(cfg, WithCalls(s, r, calls), r);
  }

  lemma EnvironmentKeepsDiscipline(cfg: Settings, s: State, a: Action)
    requires ValidSettings(cfg) && LockDiscipline(cfg, s) && Enabled(cfg, s, a) && !WorkerAction(a)
    ensures LockDiscipline(cfg, Apply(cfg, s, a))
  {
    hide LockDiscipline;
    match a
    case CreateTicket(t, title, description, createdAt, customer) =>
      CreateKeepsDiscipline(cfg, s, t, NewRow(title, description, createdAt, customer));
    case Dispatch(t, n) => DispatchKeepsDiscipline(cfg, s, Celery(n), t);
    case StartInline(t) => DispatchKeepsDiscipline(cfg, s, Inline(t), t);
    case Redeliver(r) => RedeliverKeepsDiscipline(cfg, s, r);
    case OpenEdit(t, kind) => OpenEditKeepsDiscipline(cfg, s, t, kind);
    case CommitEdit(e) => EditKeepsDiscipline(cfg, s, e, true);
    case AbortEdit(e) => EditKeepsDiscipline(cfg, s, e, false);
  }

  /** Every step keeps the lock discipline: an open transaction works on the current committed row. */
  lemma LockDisciplineStep(cfg: Settings, s: State, a: Action)
    requires ValidSettings(cfg) && LockDiscipline(cfg, s) && Enabled(cfg, s, a)
    ensures LockDiscipline(cfg, Apply(cfg, s, a))
  {
    hide LockDiscipline, Enabled, Apply;
    if ClassifyingStep(a) {
      ClassifyingKeepsDiscipline(cfg, s, a);
    } else if WorkerAction(a) {
      RecordingKeepsDiscipline(cfg, s, a);
    } else {
      EnvironmentKeepsDiscipline(cfg, s, a);
    }
  }

  // ---------- dead letters ----------

  /**
   No two letters for one task, every letter names the ticket of its task, and a run about to
   insert knows whether its task has a letter. Uniqueness does not rely on a database constraint.
   */
  ghost predicate Letters(dead: seq<DeadLetter>, tasks: map<TaskId, TicketId>, runs: seq<Run>) {
    && (forall i, j :: 0 <= i < j < |dead| ==> dead[i].task != dead[j].task)
    && (forall i :: 0 <= i < |dead| ==> dead[i].task in tasks && tasks[dead[i].task] == dead[i].ticket)
    && (forall r {:trigger runs[r]} :: 0 <= r < |runs| && runs[r].pc.Inserting? ==>
          (runs[r].pc.found <==> HasLetter(dead, runs[r].task)))
  }

  lemma MoveKeepsLetters(dead: seq<DeadLetter>, tasks: map<TaskId, TicketId>, runs: seq<Run>, r: RunId, run: Run)
    requires Letters(dead, tasks, runs) && r < |runs|
    requires run.pc.Inserting? ==> (run.pc.found <==> HasLetter(dead, run.task))
    ensures Letters(dead, tasks, runs[r := run])
  {
  }

  lemma PublishKeepsLetters(dead: seq<DeadLetter>, tasks: map<TaskId, TicketId>, runs: seq<Run>, run: Run)
    requires Letters(dead, tasks, runs) && !run.pc.Inserting?
    ensures Letters(dead, tasks, runs + [run])
  {
  }

  /** The row lock is what keeps a second copy of the task out between the search and the insert. */
  lemma InsertKeepsLetters(cfg: Settings, s: State, r: RunId)
    requires LockDiscipline(cfg, s) && Letters(s.db.dead, s.tasks, s.runs)
    requires r < |s.runs| && s.runs[r].pc.Inserting?
    ensures var s' := AfterInsert(s, r); Letters(s'.db.dead, s'.tasks, s'.runs)
  {
    var run, s' := s.runs[r], AfterInsert(s, r);
    var dead, dead' := s.db.dead, s'.db.dead;
    if run.pc.found {
      assert dead' == dead;
      MoveKeepsLetters(dead, s.tasks, s.runs, r, s'.runs[r]);
    } else {
      forall i | 0 <= i < |dead|
        ensures dead'[i] == dead[i] && dead[i].task != run.task
      {
      }
      forall q | 0 <= q < |s'.runs| && s'.runs[q].pc.Inserting?
        ensures s'.runs[q].pc.found <==> HasLetter(dead', s'.runs[q].task)
      {
        assert s.runs[q] == s'.runs[q];
        assert s.runs[q].ticket != run.ticket;
        assert s.runs[q].task != run.task;
        if HasLetter(dead', s.runs[q].task) {
          var i :| 0 <= i < |dead'| && dead'[i].task == s.runs[q].task;
          assert i < |dead|;
        }
        if HasLetter(dead, s.runs[q].task) {
          var i :| 0 <= i < |dead| && dead[i].task == s.runs[q].task;
          assert dead'[i].task == s.runs[q].task;
        }
      }
    }
  }

  /** The run that a worker's step belongs to. */
  function ActingRun(a: Action): RunId
    requires WorkerAction(a)
  {
    match a
    case LockClaim(r) => r
    case CommitClaim(r) => r
    case Classify(r, _) => r
    case ClassifyLocally(r, _) => r
    case LockFinal(r) => r
    case CommitFinal(r, _) => r
    case Refresh(r) => r
    case LockRecord(r) => r
    case Record(r) => r
    case Insert(r) => r
    case DatabaseFault(r, _, _) => r
    case Decide(r) => r
    case Crash(r, _) => r
  }

  /** The steps up to a result. */
  predicate ClassifyingStep(a: Action) {
    a.LockClaim? || a.CommitClaim? || a.Classify? || a.ClassifyLocally? || a.LockFinal? || a.CommitFinal?
    || a.Refresh?
  }

  /** What any worker step leaves alone, and the only ways it changes the runs. */
  ghost predicate StepShape(s: State, s': State, a: Action, r: RunId)
    requires r < |s.runs|
  {
    && s'.edits == s.edits && s'.tasks == s.tasks
    && s'.statusEdited == s.statusEdited && s'.corrected == s.corrected
    && r < |s'.runs| && s'.runs[r] == s.runs[r].(calls := s'.runs[r].calls, pc := s'.runs[r].pc)
    && (|| s'.runs == s.runs[r := s'.runs[r]]
        || (&& |s'.runs| == |s.runs| + 1
            && var retry := s'.runs[|s.runs|];
            && s'.runs == s.runs[r := s'.runs[r]] + [retry]
            && retry == Run(s.runs[r].task, s.runs[r].ticket, retry.retries, 0, Queued)
            && (a.Crash? || a.Decide?)))
    && (!a.Insert? ==> s'.db.dead == s.db.dead)
    && (!a.Record? ==> !s'.runs[r].pc.Inserting?)
  }

  lemma ClassifyingStepShape(cfg: Settings, s: State, a: Action)
    requires ValidSettings(cfg) && Enabled(cfg, s, a) && WorkerAction(a) && ClassifyingStep(a)
    ensures ActingRun(a) < |s.runs| && StepShape(s, Apply(cfg, s, a), a, ActingRun(a))
  {
  }

  lemma RecordingStepShape(cfg: Settings, s: State, a: Action)
    requires ValidSettings(cfg) && Enabled(cfg, s, a) && WorkerAction(a) && !ClassifyingStep(a)
    ensures ActingRun(a) < |s.runs| && StepShape(s, Apply(cfg, s, a), a, ActingRun(a))
  {
  }

  lemma WorkerStepShape(cfg: Settings, s: State, a: Action)
    requires ValidSettings(cfg) && Enabled(cfg, s, a) && WorkerAction(a)
    ensures ActingRun(a) < |s.runs| && StepShape(s, Apply(cfg, s, a), a, ActingRun(a))
  {
    if ClassifyingStep(a) { ClassifyingStepShape(cfg, s, a); } else { RecordingStepShape(cfg, s, a); }
  }

  lemma LettersStep(cfg: Settings, s: State, a: Action)
    requires ValidSettings(cfg) && Enabled(cfg, s, a)
    requires LockDiscipline(cfg, s) && Letters(s.db.dead, s.tasks, s.runs)
    ensures var s' := Apply(cfg, s, a); Letters(s'.db.dead, s'.tasks, s'.runs)
  {
    var s' := Apply(cfg, s, a);
    if a.Insert? {
      InsertKeepsLetters(cfg, s, a.r);
    } else if WorkerAction(a) {
      WorkerStepShape(cfg, s, a);
      var r := ActingRun(a);
      MoveKeepsLetters(s.db.dead, s.tasks, s.runs, r, s'.runs[r]);
      if |s'.runs| > |s.runs| {
        PublishKeepsLetters(s.db.dead, s.tasks, s.runs[r := s'.runs[r]], s'.runs[|s.runs|]);
      }
    }
  }
}
