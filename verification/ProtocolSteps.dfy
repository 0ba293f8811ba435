/** What the steps of the protocol do, in full, without its own predicates for errors and retries. */
module ProtocolSteps {
  import opened Domain
  import opened RetryEngine
  import opened Protocol
  import opened ProtocolSafety
  import opened ProtocolBudgets
  import opened ProtocolLedger
  import opened ProtocolRuns

  // ---------- failures and retries ----------

  /** In a reachable state a failure is retried exactly when its error passes and the Celery task has retries left. */
  ghost predicate Retries(cfg: Settings, run: Run, e: TaskError) {
    run.task.Celery? && run.retries < cfg.taskMaxRetries && Passing(e)
  }

  lemma RetriesIff(cfg: Settings, s: State, r: RunId)
    requires Budgets(cfg, s) && r < |s.runs| && ErrorOf(s.runs[r].pc).Some?
    ensures var run, e := s.runs[r], ErrorOf(s.runs[r].pc).value;
            WillRetry(cfg, run.task, run.retries, e) <==> Retries(cfg, run, e)
  {
    assert WithinBudgets(cfg, s.runs[r]);
  }

  /** What a failure adds: all calls of an exhausted engine but the first, and one for any other error. */
  ghost function Adds(run: Run, e: TaskError): int { if Exhaustion(e) then run.calls - 1 else 1 }

  lemma RecordCountsExactly(cfg: Settings, s: State, r: RunId)
    requires ValidSettings(cfg) && LockDiscipline(cfg, s) && Budgets(cfg, s) && r < |s.runs| && s.runs[r].pc.Recording?
    ensures var run, db' := s.runs[r], AfterRecord(cfg, s, r).db;
            && run.ticket in s.db.rows && db'.dead == s.db.dead
            && var row := s.db.rows[run.ticket];
               db'.rows == if row.status != Complete && WillRetry(cfg, run.task, run.retries, run.pc.error)
                           then s.db.rows[run.ticket := row.(status := Pending,
                                                             retryCount := row.retryCount + Adds(run, run.pc.error))]
                           else s.db.rows
  {
    assert Snapshot(cfg, s, s.runs[r]) && WithinBudgets(cfg, s.runs[r]);
    assert s.db.dead + [] == s.db.dead;
  }

  lemma InsertCountsExactly(cfg: Settings, s: State, r: RunId)
    requires ValidSettings(cfg) && LockDiscipline(cfg, s) && Budgets(cfg, s) && r < |s.runs| && s.runs[r].pc.Inserting?
    ensures var run := s.runs[r];
            && run.ticket in s.db.rows && !WillRetry(cfg, run.task, run.retries, run.pc.error)
            && var row := s.db.rows[run.ticket];
               && run.pc.mine == row.(status := Failed, retryCount := row.retryCount + Adds(run, run.pc.error))
               && AfterInsert(s, r).db.rows == s.db.rows[run.ticket := run.pc.mine]
  {
    assert Snapshot(cfg, s, s.runs[r]) && WithinBudgets(cfg, s.runs[r]);
  }

  lemma InsertAddsOneLetter(s: State, r: RunId)
    requires Letters(s.db.dead, s.tasks, s.runs) && r < |s.runs| && s.runs[r].pc.Inserting?
    ensures var run, dead' := s.runs[r], AfterInsert(s, r).db.dead;
            && ((exists i :: 0 <= i < |s.db.dead| && s.db.dead[i].task == run.task) ==> dead' == s.db.dead)
            && ((forall i :: 0 <= i < |s.db.dead| ==> s.db.dead[i].task != run.task) ==>
                  dead' == s.db.dead + [DeadLetter(run.ticket, run.task, Max(run.retries, run.pc.mine.retryCount))])
  {
    assert s.db.dead + [] == s.db.dead;
  }

  /**
   In a reachable state, the step that records a failure commits it if and only if it will be retried: the
   row is PENDING and counts exactly what the failure adds. Otherwise nothing changes yet.
   */
  lemma RetriesAreRecordedExactly(cfg: Settings, s: State, r: RunId)
    requires ValidSettings(cfg) && Invariant(cfg, s) && Enabled(cfg, s, Record(r))
    ensures var run, db' := s.runs[r], Apply(cfg, s, Record(r)).db;
            && run.ticket in s.db.rows && db'.dead == s.db.dead
            && var row := s.db.rows[run.ticket];
               db'.rows == if row.status != Complete && Retries(cfg, run, run.pc.error)
                           then s.db.rows[run.ticket := row.(status := Pending,
                                                             retryCount := row.retryCount + Adds(run, run.pc.error))]
                           else s.db.rows
  {
    RetriesIff(cfg, s, r);
    RecordCountsExactly(cfg, s, r);
  }

  /** The change of a final failure: the row is FAILED and counts more, and the task has a letter that covers it. */
  ghost predicate FailsTicket(db: Shared, db': Shared, run: Run, adds: int) {
    && run.ticket in db.rows
    && var row := db.rows[run.ticket];
       var count := row.retryCount + adds;
       && 0 <= count && db'.rows == db.rows[run.ticket := row.(status := Failed, retryCount := count)]
       && ((exists i :: 0 <= i < |db.dead| && db.dead[i].task == run.task) ==> db'.dead == db.dead)
       && ((forall i :: 0 <= i < |db.dead| ==> db.dead[i].task != run.task) ==>
             db'.dead == db.dead + [DeadLetter(run.ticket, run.task, Max(run.retries, count))])
  }

  lemma InsertFailsTicket(cfg: Settings, s: State, r: RunId)
    requires ValidSettings(cfg) && LockDiscipline(cfg, s) && Budgets(cfg, s) && Letters(s.db.dead, s.tasks, s.runs)
    requires r < |s.runs| && s.runs[r].pc.Inserting?
    ensures FailsTicket(s.db, AfterInsert(s, r).db, s.runs[r], Adds(s.runs[r], s.runs[r].pc.error))
  {
    hide LockDiscipline, Budgets, Letters, AfterInsert, Adds;
    InsertCountsExactly(cfg, s, r);
    InsertAddsOneLetter(s, r);
  }

  /**
   In a reachable state, the step that commits a final failure sets FAILED and counts exactly what the failure
   adds; the task gets a letter that covers the new count, unless it has one.
   */
  lemma FinalFailuresAreRecordedExactly(cfg: Settings, s: State, r: RunId)
    requires ValidSettings(cfg) && Invariant(cfg, s) && Enabled(cfg, s, Insert(r))
    ensures var run := s.runs[r];
            && !Retries(cfg, run, run.pc.error)
            && FailsTicket(s.db, Apply(cfg, s, Insert(r)).db, run, Adds(run, run.pc.error))
  {
    hide LockDiscipline, Budgets, Letters, AfterInsert, FailsTicket, Adds;
    RetriesIff(cfg, s, r);
    InsertCountsExactly(cfg, s, r);
    InsertFailsTicket(cfg, s, r);
  }

  lemma DecideIsExact(cfg: Settings, s: State, r: RunId)
    requires r < |s.runs| && s.runs[r].pc.Recorded?
    ensures var run, s' := s.runs[r], AfterDecide(cfg, s, r);
            && s'.db == s.db
            && s'.runs == if WillRetry(cfg, run.task, run.retries, run.pc.error)
                          then s.runs[r := run.(pc := Retried(run.pc.error))]
                               + [Run(run.task, run.ticket, run.retries + 1, 0, Queued)]
                          else s.runs[r := run.(pc := Ended(run.pc.error))]
  {
  }

  /** A run that has recorded its failure publishes its retry if and only if it is due, and ends otherwise. */
  lemma DecisionsAreExact(cfg: Settings, s: State, r: RunId)
    requires ValidSettings(cfg) && Invariant(cfg, s) && Enabled(cfg, s, Decide(r))
    ensures var run, s' := s.runs[r], Apply(cfg, s, Decide(r));
            && s'.db == s.db
            && s'.runs == if Retries(cfg, run, run.pc.error)
                          then s.runs[r := run.(pc := Retried(run.pc.error))]
                               + [Run(run.task, run.ticket, run.retries + 1, 0, Queued)]
                          else s.runs[r := run.(pc := Ended(run.pc.error))]
  {
    RetriesIff(cfg, s, r);
    DecideIsExact(cfg, s, r);
  }

  /** Over every behaviour, what each committed entry counts, in provider calls of its run. */
  lemma EntriesCountCalls(cfg: Settings, trace: seq<State>, actions: seq<Action>, i: nat, k: nat)
    requires ValidSettings(cfg) && Behaviour(cfg, trace, actions) && i <= |actions| && k < |trace[i].ledger|
    ensures trace[i].ledger[k].run < |trace[i].runs|
    ensures var e, calls := trace[i].ledger[k], trace[i].runs[trace[i].ledger[k].run].calls;
            && (e.Completion? ==> Increment(e) == if calls == 0 then 0 else calls - 1)
            && (e.FailureRecord? && Exhaustion(e.error) ==> Increment(e) == calls - 1)
            && (e.FailureRecord? && !Exhaustion(e.error) ==> Increment(e) == 1)
  {
    InvariantAlways(cfg, trace, actions, i);
    assert Owned(trace[i].runs, trace[i].ledger[k]);
  }

  // ---------- results ----------

  /** Classifying counts the provider calls and hands on the first answer after transient faults. */
  lemma ClassifyingHandsOnTheAnswer(cfg: Settings, s: State, r: RunId, script: seq<Outcome>, i: nat)
    requires ValidSettings(cfg) && Enabled(cfg, s, Classify(r, script))
    requires i < 2 * cfg.maxAttempts && script[i].Answer? && forall j :: 0 <= j < i ==> Transient(script[j])
    ensures var run := Apply(cfg, s, Classify(r, script)).runs[r];
            && run == s.runs[r].(calls := i + 1, pc := run.pc)
            && run.pc.HasResult? && run.pc.result.attempts == i + 1
            && run.pc.result == Scan(cfg, script).result
  {
    TransientFaultsAreRetried(cfg, script, i);
  }

  /** Or the first other fault, or exhaustion. */
  lemma ClassifyingHandsOnTheFault(cfg: Settings, s: State, r: RunId, script: seq<Outcome>, i: nat)
    requires ValidSettings(cfg) && Enabled(cfg, s, Classify(r, script))
    requires i <= 2 * cfg.maxAttempts && forall j :: 0 <= j < i ==> Transient(script[j])
    requires i < 2 * cfg.maxAttempts ==> script[i].Fault? && !Transient(script[i])
    ensures var run := Apply(cfg, s, Classify(r, script)).runs[r];
            if i < 2 * cfg.maxAttempts
            then run == s.runs[r].(calls := i + 1, pc := Failing(FromService(Provider(script[i].error))))
            else && run == s.runs[r].(calls := i, pc := run.pc)
                 && run.pc.Failing? && Exhaustion(run.pc.error) && run.pc.error.error.attempts == i
  {
    if i < 2 * cfg.maxAttempts {
      OtherFaultsAreRaised(cfg, script, i);
    } else {
      TransientFaultsExhaust(cfg, script);
    }
  }

  /** The local classifier costs nothing, counts as one attempt, and finalising it adds no retry. */
  lemma LocalResultsAreFree(cfg: Settings, s: State, r: RunId, c: Classification)
    requires ValidSettings(cfg) && Enabled(cfg, s, ClassifyLocally(r, c))
    ensures Apply(cfg, s, ClassifyLocally(r, c)).runs
         == s.runs[r := s.runs[r].(pc := HasResult(Result(c, "local-rule-fallback-v1", 0, 0.0, 1)))]
  {
  }

  // ---------- the course of a run ----------

  /** A lock is granted on the committed row, and what the run carries goes with it. */
  lemma LocksLoadTheRow(cfg: Settings, s: State, a: Action)
    requires ValidSettings(cfg) && LockDiscipline(cfg, s) && Enabled(cfg, s, a)
    requires a.LockClaim? || a.LockFinal? || a.LockRecord?
    ensures var run, s' := s.runs[a.r], Apply(cfg, s, a);
            && run.ticket in s.db.rows && run.ticket !in s.db.locks
            && s'.db == s.db.(locks := s.db.locks[run.ticket := ByRun(a.r)])
            && var row := s.db.rows[run.ticket];
               s'.runs == s.runs[a.r := run.(pc := match run.pc
                                                   case HasResult(result) => Finalising(result, row)
                                                   case Failing(e) => Recording(e, row)
                                                   case _ => Claiming(row))]
  {
  }

  /** Where a transaction leads, by the status of the row that it locked; every end releases the lock. */
  lemma TransactionsEnd(cfg: Settings, s: State, a: Action)
    requires ValidSettings(cfg) && LockDiscipline(cfg, s) && Enabled(cfg, s, a)
    requires a.CommitClaim? || a.CommitFinal? || a.Refresh? || a.Insert?
    ensures var run, s' := s.runs[a.r], Apply(cfg, s, a);
            && run.ticket in s.db.rows && s'.db.locks == s.db.locks - (if a.Refresh? then {} else {run.ticket})
            && var complete := s.db.rows[run.ticket].status == Complete;
               && s'.runs == s.runs[a.r := run.(pc := match a
                                                      case CommitClaim(_) => if complete then Done else Classifying
                                                      case CommitFinal(_, _) => if complete then Done else Refreshing
                                                      case Insert(_) => Recorded(run.pc.error)
                                                      case _ => Done)]
               && s'.ledger == s.ledger + match a
                                          case CommitFinal(_, ms) =>
                                            if complete then [] else [Completion(a.r, run.ticket, run.pc.result, ms)]
                                          case Insert(_) => [FailureRecord(a.r, run.ticket, run.pc.error, false)]
                                          case _ => []
  {
    assert Snapshot(cfg, s, s.runs[a.r]);
  }

  /** Recording a final failure of a ticket that is not complete looks for a letter; any other goes on to the decision. */
  lemma RecordingGoesOn(cfg: Settings, s: State, r: RunId)
    requires ValidSettings(cfg) && LockDiscipline(cfg, s) && Enabled(cfg, s, Record(r))
    ensures var run, run' := s.runs[r], Apply(cfg, s, Record(r)).runs[r];
            && run.ticket in s.db.rows
            && var final := !WillRetry(cfg, run.task, run.retries, run.pc.error);
               if final && s.db.rows[run.ticket].status != Complete
               then && run' == run.(pc := Inserting(run.pc.error, run'.pc.mine, run'.pc.found))
                    && (run'.pc.found <==> exists i :: 0 <= i < |s.db.dead| && s.db.dead[i].task == run.task)
               else run' == run.(pc := Recorded(run.pc.error))
  {
    assert Snapshot(cfg, s, s.runs[r]);
  }

  /** A fault becomes the error to record, unless an error is being recorded already: that one stays. */
  lemma FaultsAreRecorded(cfg: Settings, s: State, r: RunId, fault: TaskError, calls: nat)
    requires ValidSettings(cfg) && LockDiscipline(cfg, s) && Enabled(cfg, s, DatabaseFault(r, fault, calls))
    ensures var run, s' := s.runs[r], Apply(cfg, s, DatabaseFault(r, fault, calls));
            && s'.runs == s.runs[r := run.(calls := run.calls + calls,
                                           pc := match run.pc
                                                 case Failing(e) => Recorded(e)
                                                 case Recording(e, _) => Recorded(e)
                                                 case Inserting(e, _, _) => Recorded(e)
                                                 case _ => Failing(fault))]
            && s'.db.locks == (if Locked(run.pc) then s.db.locks - {run.ticket} else s.db.locks)
            && s'.ledger == s.ledger
  {
  }

  /** Nobody has a transaction open on the row. */
  ghost predicate Unattended(s: State, t: TicketId) {
    && (forall r :: 0 <= r < |s.runs| && s.runs[r].ticket == t ==>
          var pc := s.runs[r].pc; !pc.Claiming? && !pc.Finalising? && !pc.Recording? && !pc.Inserting?)
    && (forall e :: 0 <= e < |s.edits| && s.edits[e].ticket == t ==> !s.edits[e].open)
  }

  /** A lock is granted to whoever asks if and only if nobody else has a transaction open on the row. */
  lemma LocksAreGrantedIff(cfg: Settings, s: State, r: RunId, t: TicketId, kind: EditKind)
    requires LockDiscipline(cfg, s)
    ensures Enabled(cfg, s, OpenEdit(t, kind)) <==> t in s.db.rows && Unattended(s, t)
    ensures r < |s.runs| && s.runs[r].pc.Queued? ==> (Enabled(cfg, s, LockClaim(r)) <==> Unattended(s, s.runs[r].ticket))
    ensures r < |s.runs| && s.runs[r].pc.HasResult? ==> (Enabled(cfg, s, LockFinal(r)) <==> Unattended(s, s.runs[r].ticket))
    ensures r < |s.runs| && s.runs[r].pc.Failing? ==> (Enabled(cfg, s, LockRecord(r)) <==> Unattended(s, s.runs[r].ticket))
  {
    UnlockedIff(cfg, s, t);
    if r < |s.runs| {
      UnlockedIff(cfg, s, s.runs[r].ticket);
    }
  }

  lemma UnlockedIff(cfg: Settings, s: State, t: TicketId)
    requires LockDiscipline(cfg, s)
    ensures t !in s.db.locks <==> Unattended(s, t)
  {
    if t in s.db.locks {
      match s.db.locks[t]
      case ByRun(r) => assert s.runs[r].ticket == t;
      case ByEdit(e) => assert s.edits[e].ticket == t;
    }
  }

  /**
   Every delivery of a Celery task may be repeated; every unfinished run may die, and meet any fault
   until it has recorded its failure.
   */
  lemma AnythingMayFail(cfg: Settings, s: State, r: RunId, fault: TaskError, calls: nat)
    requires r < |s.runs| && !fault.FromService? && !fault.TicketNotFound?
    requires calls == 0 || (s.runs[r].pc.Classifying? && calls <= 2 * cfg.maxAttempts)
    ensures var run := s.runs[r];
            && (run.task.Celery? ==> Enabled(cfg, s, Redeliver(r)))
            && (Enabled(cfg, s, Crash(r, calls)) <==> !run.pc.Done? && !run.pc.Retried? && !run.pc.Ended? && !run.pc.Lost?)
            && (Enabled(cfg, s, DatabaseFault(r, fault, calls)) <==> Enabled(cfg, s, Crash(r, calls)) && !run.pc.Recorded?)
  {
  }

  // ---------- what the history fields record ----------

  ghost predicate SetsStatus(s: State, a: Action, t: TicketId) {
    a.CommitEdit? && a.e < |s.edits| && s.edits[a.e].ticket == t && s.edits[a.e].kind.SetStatus?
  }

  ghost predicate Corrects(s: State, a: Action, t: TicketId) {
    a.CommitEdit? && a.e < |s.edits| && s.edits[a.e].ticket == t && s.edits[a.e].kind.Correct?
  }

  /** The database fails while a final failure is recorded, or an inline request dies. */
  ghost predicate LosesFailure(cfg: Settings, s: State, a: Action, t: TicketId) {
    || (&& a.DatabaseFault? && a.r < |s.runs| && s.runs[a.r].ticket == t
        && (s.runs[a.r].pc.Failing? || s.runs[a.r].pc.Recording? || s.runs[a.r].pc.Inserting?)
        && !Retries(cfg, s.runs[a.r], s.runs[a.r].pc.error))
    || (a.Crash? && a.r < |s.runs| && s.runs[a.r].ticket == t && s.runs[a.r].task.Inline?)
  }

  /** The broker delivers the task again, or its worker dies. */
  ghost predicate DeliversAgain(s: State, a: Action, task: TaskId) {
    task.Celery? && (a.Crash? || a.Redeliver?) && a.r < |s.runs| && s.runs[a.r].task == task
  }

  lemma EditsOnRecord(cfg: Settings, s: State, a: Action, t: TicketId)
    requires ValidSettings(cfg) && Enabled(cfg, s, a)
    ensures var s' := Apply(cfg, s, a);
            && (t in s'.statusEdited <==> t in s.statusEdited || SetsStatus(s, a, t))
            && (t in s'.corrected <==> t in s.corrected || Corrects(s, a, t))
  {
  }

  lemma LossesOnRecord(cfg: Settings, s: State, a: Action, t: TicketId)
    requires ValidSettings(cfg) && Enabled(cfg, s, a) && Budgets(cfg, s)
    ensures t in Apply(cfg, s, a).lost <==> t in s.lost || LosesFailure(cfg, s, a, t)
  {
    if a.DatabaseFault? && RecordingFailure(s.runs[a.r].pc) {
      RetriesIff(cfg, s, a.r);
    }
  }

  lemma RepeatsOnRecord(cfg: Settings, s: State, a: Action, task: TaskId)
    requires ValidSettings(cfg) && Enabled(cfg, s, a)
    ensures task in Apply(cfg, s, a).redelivered <==> task in s.redelivered || DeliversAgain(s, a, task)
  {
  }

  lemma RecordsAt(cfg: Settings, trace: seq<State>, actions: seq<Action>, j: nat, t: TicketId, task: TaskId)
    requires ValidSettings(cfg) && Behaviour(cfg, trace, actions) && j < |actions|
    ensures t in trace[j + 1].statusEdited <==> t in trace[j].statusEdited || SetsStatus(trace[j], actions[j], t)
    ensures t in trace[j + 1].corrected <==> t in trace[j].corrected || Corrects(trace[j], actions[j], t)
    ensures t in trace[j + 1].lost <==> t in trace[j].lost || LosesFailure(cfg, trace[j], actions[j], t)
    ensures task in trace[j + 1].redelivered <==> task in trace[j].redelivered || DeliversAgain(trace[j], actions[j], task)
  {
    hide Apply, Enabled, SetsStatus, Corrects, LosesFailure, DeliversAgain, Budgets;
    StepAt(cfg, trace, actions, j);
    EditsOnRecord(cfg, trace[j], actions[j], t);
    LossesOnRecord(cfg, trace[j], actions[j], t);
    RepeatsOnRecord(cfg, trace[j], actions[j], task);
  }

  ghost predicate StatusWasSet(trace: seq<State>, actions: seq<Action>, i: nat, t: TicketId) {
    exists j {:trigger actions[j]} :: 0 <= j < i && j < |actions| && j < |trace| && SetsStatus(trace[j], actions[j], t)
  }

  ghost predicate WasCorrected(trace: seq<State>, actions: seq<Action>, i: nat, t: TicketId) {
    exists j {:trigger actions[j]} :: 0 <= j < i && j < |actions| && j < |trace| && Corrects(trace[j], actions[j], t)
  }

  ghost predicate FailureWasLost(cfg: Settings, trace: seq<State>, actions: seq<Action>, i: nat, t: TicketId) {
    exists j {:trigger actions[j]} :: 0 <= j < i && j < |actions| && j < |trace| && LosesFailure(cfg, trace[j], actions[j], t)
  }

  ghost predicate WasRepeated(trace: seq<State>, actions: seq<Action>, i: nat, task: TaskId) {
    exists j {:trigger actions[j]} :: 0 <= j < i && j < |actions| && j < |trace| && DeliversAgain(trace[j], actions[j], task)
  }

  lemma OneMoreStep(cfg: Settings, trace: seq<State>, actions: seq<Action>, j: nat, t: TicketId, task: TaskId)
    requires j < |actions| && j < |trace|
    ensures StatusWasSet(trace, actions, j + 1, t) <==> StatusWasSet(trace, actions, j, t) || SetsStatus(trace[j], actions[j], t)
    ensures WasCorrected(trace, actions, j + 1, t) <==> WasCorrected(trace, actions, j, t) || Corrects(trace[j], actions[j], t)
    ensures FailureWasLost(cfg, trace, actions, j + 1, t) <==>
              FailureWasLost(cfg, trace, actions, j, t) || LosesFailure(cfg, trace[j], actions[j], t)
    ensures WasRepeated(trace, actions, j + 1, task) <==> WasRepeated(trace, actions, j, task) || DeliversAgain(trace[j], actions[j], task)
  {
    hide SetsStatus, Corrects, LosesFailure, DeliversAgain;
    assert actions[j] == actions[j];
  }

  /** The history fields record exactly the steps that they are named after. */
  lemma {:induction false} RecordsAreExact(cfg: Settings, trace: seq<State>, actions: seq<Action>, i: nat, t: TicketId, task: TaskId)
    requires ValidSettings(cfg) && Behaviour(cfg, trace, actions) && i <= |actions|
    ensures t in trace[i].statusEdited <==> StatusWasSet(trace, actions, i, t)
    ensures t in trace[i].corrected <==> WasCorrected(trace, actions, i, t)
    ensures t in trace[i].lost <==> FailureWasLost(cfg, trace, actions, i, t)
    ensures task in trace[i].redelivered <==> WasRepeated(trace, actions, i, task)
  {
    if i == 0 {
    } else {
      hide StatusWasSet, WasCorrected, FailureWasLost, WasRepeated, SetsStatus, Corrects, LosesFailure, DeliversAgain, Next;
      RecordsAreExact(cfg, trace, actions, i - 1, t, task);
      RecordsAt(cfg, trace, actions, i - 1, t, task);
      OneMoreStep(cfg, trace, actions, i - 1, t, task);
    }
  }

  /** A delivery that dies or is repeated is queued again as it was, with its own count of retries. */
  lemma RepeatedDeliveriesAreTheSame(cfg: Settings, s: State, a: Action)
    requires ValidSettings(cfg) && Enabled(cfg, s, a) && (a.Crash? || a.Redeliver?) && s.runs[a.r].task.Celery?
    ensures var run, runs' := s.runs[a.r], Apply(cfg, s, a).runs;
            && |runs'| == |s.runs| + 1
            && runs'[|s.runs|] == Run(run.task, run.ticket, run.retries, 0, Queued)
            && (a.Crash? ==> runs'[a.r] == run.(calls := run.calls + a.calls, pc := Lost))
            && forall r :: 0 <= r < |s.runs| && (a.Crash? ==> r != a.r) ==> runs'[r] == s.runs[r]
  {
  }

  /** A dispatched task and an inline request each start with one queued run. */
  lemma DispatchQueuesOneRun(cfg: Settings, s: State, a: Action)
    requires ValidSettings(cfg) && Enabled(cfg, s, a) && (a.Dispatch? || a.StartInline?)
    ensures var task := if a.Dispatch? then Celery(a.n) else Inline(a.t);
            var s' := Apply(cfg, s, a);
            s'.runs == s.runs + [Run(task, a.t, 0, 0, Queued)] && s'.tasks == s.tasks[task := a.t] && task !in s.tasks
  {
  }

  // ---------- rows ----------

  /** Intake inserts an empty pending row under a new id. */
  lemma IntakeInsertsOneRow(cfg: Settings, s: State, a: Action)
    requires ValidSettings(cfg) && Enabled(cfg, s, a) && a.CreateTicket?
    ensures var s' := Apply(cfg, s, a);
            && a.t !in s.db.rows && s' == s.(db := s.db.(rows := s'.db.rows))
            && s'.db.rows == s.db.rows[a.t := s'.db.rows[a.t]]
            && var row := s'.db.rows[a.t];
            && row.title == a.title && row.description == a.description && row.createdAt == a.createdAt
            && row.customer == a.customer && row.agent.None? && row.status == Pending && row.retryCount == 0
            && Unclassified(row) && WithoutMetadata(row)
  {
  }

  /** Of all other steps only the commits that CommitsAreAtomic describes change rows or letters. */
  lemma OtherStepsChangeNothing(cfg: Settings, s: State, a: Action)
    requires ValidSettings(cfg) && Enabled(cfg, s, a)
    requires !a.CreateTicket? && !a.CommitClaim? && !a.CommitFinal? && !a.Insert? && !a.CommitEdit?
    requires a.Record? ==> !WillRetry(cfg, s.runs[a.r].task, s.runs[a.r].retries, s.runs[a.r].pc.error)
    ensures Apply(cfg, s, a).db.rows == s.db.rows && Apply(cfg, s, a).db.dead == s.db.dead
  {
  }
}
