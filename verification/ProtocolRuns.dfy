/** The protocol's guarantees over every behaviour of the whole system. */
module ProtocolRuns {
  import opened Domain
  import opened RetryEngine
  import opened Protocol
  import opened ProtocolSafety
  import opened ProtocolHistory
  import opened ProtocolBudgets
  import opened ProtocolLedger
  import opened ProtocolLiveness

  ghost predicate Invariant(cfg: Settings, s: State) {
    && LockDiscipline(cfg, s)
    && Letters(s.db.dead, s.tasks, s.runs)
    && History(s)
    && Budgets(cfg, s)
    && RunEntries(s)
    && RetryChains(cfg, s)
    && NobodyStranded(cfg, s)
    && Announcements(cfg, s)
  }

  lemma InvariantStep(cfg: Settings, s: State, a: Action)
    requires ValidSettings(cfg) && Enabled(cfg, s, a) && Invariant(cfg, s)
    ensures Invariant(cfg, Apply(cfg, s, a))
  {
    LockDisciplineStep(cfg, s, a);
    LettersStep(cfg, s, a);
    HistoryStep(cfg, s, a);
    BudgetsStep(cfg, s, a);
    RunEntriesStep(cfg, s, a);
    RetryChainsStep(cfg, s, a);
    NobodyStrandedStep(cfg, s, a);
    AnnouncementsStep(cfg, s, a);
  }

  lemma {:induction false} InvariantAlways(cfg: Settings, trace: seq<State>, actions: seq<Action>, i: nat)
    requires ValidSettings(cfg) && Behaviour(cfg, trace, actions) && i <= |actions|
    ensures Invariant(cfg, trace[i])
  {
    if i == 0 {
    } else {
      InvariantAlways(cfg, trace, actions, i - 1);
      assert Next(cfg, trace[i - 1], actions[i - 1], trace[i]);
      InvariantStep(cfg, trace[i - 1], actions[i - 1]);
    }
  }

  /** One step of a behaviour, from a state in which all invariants hold. */
  lemma StepAt(cfg: Settings, trace: seq<State>, actions: seq<Action>, j: nat)
    requires ValidSettings(cfg) && Behaviour(cfg, trace, actions) && j < |actions|
    ensures Enabled(cfg, trace[j], actions[j]) && trace[j + 1] == Apply(cfg, trace[j], actions[j])
    ensures Invariant(cfg, trace[j]) && LockDiscipline(cfg, trace[j])
  {
    hide Apply, Enabled, LockDiscipline, Letters, History, Budgets, RunEntries, RetryChains, NobodyStranded, Announcements;
    InvariantAlways(cfg, trace, actions, j);
    assert Next(cfg, trace[j], actions[j], trace[j + 1]);
  }

  // ---------- the split transactions behave as if they were atomic ----------

  /**
   Whatever ran between a transaction's locked read and its commit, the commit changes the
   database as if the whole transaction had been executed on the current row at that moment.
   */
  lemma CommitsAreAtomic(cfg: Settings, s: State, a: Action)
    requires ValidSettings(cfg) && Enabled(cfg, s, a) && Invariant(cfg, s)
    ensures var db, db' := s.db, Apply(cfg, s, a).db;
            && (a.CommitClaim? ==>
                  var t := s.runs[a.r].ticket;
                  t in db.rows && db'.rows == db.rows[t := ClaimTransaction(db.rows[t])] && db'.dead == db.dead)
            && (a.CommitFinal? ==>
                  var t := s.runs[a.r].ticket;
                  && t in db.rows && db'.dead == db.dead
                  && db'.rows == db.rows[t := FinaliseTransaction(db.rows[t], s.runs[a.r].pc.result, a.ms)])
            && (a.Record? && WillRetry(cfg, s.runs[a.r].task, s.runs[a.r].retries, s.runs[a.r].pc.error) ==>
                  var t, inc := s.runs[a.r].ticket, RetryIncrement(s.runs[a.r].pc.error);
                  t in db.rows && db'.rows == db.rows[t := RecordTransaction(db.rows[t], inc, true)] && db'.dead == db.dead)
            && (a.Insert? ==>
                  var run, inc := s.runs[a.r], RetryIncrement(s.runs[a.r].pc.error);
                  var t := run.ticket;
                  && t in db.rows
                  && db'.rows == db.rows[t := RecordTransaction(db.rows[t], inc, false)]
                  && db'.dead == LettersTransaction(db.dead, db.rows[t], t, run.task, run.retries, inc, false))
            && (a.CommitEdit? ==>
                  var t := s.edits[a.e].ticket;
                  && t in db.rows && db'.dead == db.dead
                  && db'.rows == db.rows[t := EditedRow(db.rows[t], s.edits[a.e].kind)])
  {
    if a.CommitClaim? {
      ClaimIsAtomic(cfg, s, a.r);
    } else if a.CommitFinal? {
      FinalIsAtomic(cfg, s, a.r, a.ms);
    } else if a.Record? {
      RecordIsAtomic(cfg, s, a.r);
    } else if a.Insert? {
      InsertIsAtomic(cfg, s, a.r);
    } else if a.CommitEdit? {
      EditIsAtomic(cfg, s, a.e);
    }
  }

  lemma ClaimIsAtomic(cfg: Settings, s: State, r: RunId)
    requires LockDiscipline(cfg, s) && r < |s.runs| && s.runs[r].pc.Claiming?
    ensures var t := s.runs[r].ticket;
            && t in s.db.rows && AfterClaim(s, r).db.dead == s.db.dead
            && AfterClaim(s, r).db.rows == s.db.rows[t := ClaimTransaction(s.db.rows[t])]
  {
    assert s.db.dead + [] == s.db.dead;
    assert Snapshot(cfg, s, s.runs[r]);
  }

  lemma FinalIsAtomic(cfg: Settings, s: State, r: RunId, ms: nat)
    requires LockDiscipline(cfg, s) && r < |s.runs| && s.runs[r].pc.Finalising?
    ensures var t := s.runs[r].ticket;
            && t in s.db.rows && AfterFinal(s, r, ms).db.dead == s.db.dead
            && AfterFinal(s, r, ms).db.rows == s.db.rows[t := FinaliseTransaction(s.db.rows[t], s.runs[r].pc.result, ms)]
  {
    assert s.db.dead + [] == s.db.dead;
    assert Snapshot(cfg, s, s.runs[r]);
  }

  lemma RecordIsAtomic(cfg: Settings, s: State, r: RunId)
    requires LockDiscipline(cfg, s) && r < |s.runs| && s.runs[r].pc.Recording?
    ensures var run, db, db' := s.runs[r], s.db, AfterRecord(cfg, s, r).db;
            WillRetry(cfg, run.task, run.retries, run.pc.error) ==>
              && run.ticket in db.rows && db'.dead == db.dead
              && db'.rows == db.rows[run.ticket := RecordTransaction(db.rows[run.ticket], RetryIncrement(run.pc.error), true)]
  {
    assert Snapshot(cfg, s, s.runs[r]);
    assert s.db.dead + [] == s.db.dead;
  }

  lemma EditIsAtomic(cfg: Settings, s: State, e: EditId)
    requires LockDiscipline(cfg, s) && e < |s.edits| && s.edits[e].open
    ensures var t := s.edits[e].ticket;
            && t in s.db.rows && AfterEdit(s, e, true).db.dead == s.db.dead
            && AfterEdit(s, e, true).db.rows == s.db.rows[t := EditedRow(s.db.rows[t], s.edits[e].kind)]
  {
  }

  lemma InsertIsAtomic(cfg: Settings, s: State, r: RunId)
    requires LockDiscipline(cfg, s) && Letters(s.db.dead, s.tasks, s.runs)
    requires r < |s.runs| && s.runs[r].pc.Inserting?
    ensures var run, db, db' := s.runs[r], s.db, AfterInsert(s, r).db;
            var t, inc := run.ticket, RetryIncrement(run.pc.error);
            && t in db.rows
            && db'.rows == db.rows[t := RecordTransaction(db.rows[t], inc, false)]
            && db'.dead == LettersTransaction(db.dead, db.rows[t], t, run.task, run.retries, inc, false)
  {
    assert Snapshot(cfg, s, s.runs[r]);
    assert s.db.dead + [] == s.db.dead;
  }

  // ---------- complete is final for workers ----------

  lemma WorkersKeepCompleteRows(cfg: Settings, s: State, a: Action, t: TicketId)
    requires ValidSettings(cfg) && Enabled(cfg, s, a) && LockDiscipline(cfg, s)
    requires t in s.db.rows && s.db.rows[t].status == Complete
    requires a.CommitEdit? ==> s.edits[a.e].ticket != t
    ensures t in Apply(cfg, s, a).db.rows && Apply(cfg, s, a).db.rows[t] == s.db.rows[t]
  {
    if !TouchesRows(a) {
      OtherStepsAreSilent(cfg, s, a);
    } else if WorkerAction(a) {
      WorkerWritesOwnRow(cfg, s, a);
    }
  }

  /** Once a ticket is complete nothing but an edit of that ticket changes any of its columns. */
  lemma {:induction false} CompleteIsFinal(cfg: Settings, trace: seq<State>, actions: seq<Action>, i: nat, j: nat, t: TicketId)
    requires ValidSettings(cfg) && Behaviour(cfg, trace, actions) && i <= j <= |actions|
    requires t in trace[i].db.rows && trace[i].db.rows[t].status == Complete
    requires forall k {:trigger actions[k]} :: i <= k < j && actions[k].CommitEdit? ==>
               actions[k].e < |trace[k].edits| && trace[k].edits[actions[k].e].ticket != t
    ensures t in trace[j].db.rows && trace[j].db.rows[t] == trace[i].db.rows[t]
  {
    if i == j {
    } else {
      CompleteIsFinal(cfg, trace, actions, i, j - 1, t);
      InvariantAlways(cfg, trace, actions, j - 1);
      assert Next(cfg, trace[j - 1], actions[j - 1], trace[j]);
      WorkersKeepCompleteRows(cfg, trace[j - 1], actions[j - 1], t);
    }
  }

  // ---------- dead letters ----------

  lemma LettersOnlyGrowStep(cfg: Settings, s: State, a: Action)
    requires ValidSettings(cfg) && Enabled(cfg, s, a)
    ensures s.db.dead <= Apply(cfg, s, a).db.dead
  {
  }

  /** A task never has two letters, and no letter is ever lost. */
  lemma {:induction false} LettersAreUniqueAndDurable(cfg: Settings, trace: seq<State>, actions: seq<Action>, i: nat, j: nat)
    requires ValidSettings(cfg) && Behaviour(cfg, trace, actions) && i <= j <= |actions|
    ensures trace[i].db.dead <= trace[j].db.dead
    ensures forall k, l :: 0 <= k < l < |trace[j].db.dead| ==> trace[j].db.dead[k].task != trace[j].db.dead[l].task
  {
    InvariantAlways(cfg, trace, actions, j);
    if i == j {
    } else {
      LettersAreUniqueAndDurable(cfg, trace, actions, i, j - 1);
      assert Next(cfg, trace[j - 1], actions[j - 1], trace[j]);
      LettersOnlyGrowStep(cfg, trace[j - 1], actions[j - 1]);
    }
  }

  /** A letter is written with a retry count that covers what its ticket's row then shows. */
  lemma LetterCoversRetryCount(cfg: Settings, s: State, a: Action, i: nat)
    requires ValidSettings(cfg) && Enabled(cfg, s, a) && Invariant(cfg, s)
    requires |s.db.dead| <= i < |Apply(cfg, s, a).db.dead|
    ensures var db' := Apply(cfg, s, a).db;
            && db'.dead[i].ticket in db'.rows
            && db'.rows[db'.dead[i].ticket].status == Failed
            && db'.rows[db'.dead[i].ticket].retryCount <= db'.dead[i].retryCount
  {
    if WorkerAction(a) { WorkerStepShape(cfg, s, a); }
    assert a.Insert?;
    InsertedLetterCovers(cfg, s, a.r, i);
  }

  lemma InsertedLetterCovers(cfg: Settings, s: State, r: RunId, i: nat)
    requires LockDiscipline(cfg, s) && r < |s.runs| && s.runs[r].pc.Inserting?
    requires |s.db.dead| <= i < |AfterInsert(s, r).db.dead|
    ensures var db' := AfterInsert(s, r).db;
            && db'.dead[i].ticket in db'.rows
            && db'.rows[db'.dead[i].ticket].status == Failed
            && db'.rows[db'.dead[i].ticket].retryCount <= db'.dead[i].retryCount
  {
    assert Snapshot(cfg, s, s.runs[r]);
  }

  // ---------- retry counts ----------

  lemma RetryCountGrowsStep(cfg: Settings, s: State, a: Action, t: TicketId)
    requires ValidSettings(cfg) && Enabled(cfg, s, a) && LockDiscipline(cfg, s) && t in s.db.rows
    ensures t in Apply(cfg, s, a).db.rows && s.db.rows[t].retryCount <= Apply(cfg, s, a).db.rows[t].retryCount
  {
    if !TouchesRows(a) {
      OtherStepsAreSilent(cfg, s, a);
    } else if WorkerAction(a) {
      WorkerWritesOwnRow(cfg, s, a);
    }
  }

  lemma {:induction false} RetryCountsGrow(cfg: Settings, trace: seq<State>, actions: seq<Action>, i: nat, j: nat, t: TicketId)
    requires ValidSettings(cfg) && Behaviour(cfg, trace, actions) && i <= j <= |actions|
    requires t in trace[i].db.rows
    ensures t in trace[j].db.rows && trace[i].db.rows[t].retryCount <= trace[j].db.rows[t].retryCount
    decreases j
  {
    hide Apply, Enabled, Invariant, LockDiscipline;
    if i == j {
    } else {
      RetryCountsGrow(cfg, trace, actions, i, j - 1, t);
      StepAt(cfg, trace, actions, j - 1);
      RetryCountGrowsStep(cfg, trace[j - 1], actions[j - 1], t);
    }
  }

  lemma RetryCountIsSum(cfg: Settings, s: State, t: TicketId)
    requires Invariant(cfg, s) && t in s.db.rows
    ensures s.db.rows[t].retryCount == RetrySum(s.ledger, t)
  {
    assert RowHistory(s.db.rows[t], t, s);
  }

  /** Retry counts never go down and are the sum of what was committed. */
  lemma RetryCountsAddUp(cfg: Settings, trace: seq<State>, actions: seq<Action>, i: nat, j: nat, t: TicketId)
    requires ValidSettings(cfg) && Behaviour(cfg, trace, actions) && i <= j <= |actions|
    requires t in trace[i].db.rows
    ensures t in trace[j].db.rows
    ensures trace[i].db.rows[t].retryCount <= trace[j].db.rows[t].retryCount == RetrySum(trace[j].ledger, t)
  {
    RetryCountsGrow(cfg, trace, actions, i, j, t);
    InvariantAlways(cfg, trace, actions, j);
    RetryCountIsSum(cfg, trace[j], t);
  }

  /**
   Every committed increment belongs to a run of its ticket. No run commits twice, and a ticket's count is
   at most 2 * maxAttempts - 1 for each of its runs, as long as no agent sets the ticket's status. If one
   does, a run that had completed the ticket and then failed to read it back may count one more.
   */
  lemma RetryCountsAreBounded(cfg: Settings, trace: seq<State>, actions: seq<Action>, i: nat, t: TicketId)
    requires ValidSettings(cfg) && Behaviour(cfg, trace, actions) && i <= |actions|
    requires t in trace[i].db.rows
    ensures var s := trace[i];
            && s.db.rows[t].retryCount <= 2 * cfg.maxAttempts * Sum(s.runs, RunOf(t))
            && (t !in s.statusEdited ==> s.db.rows[t].retryCount <= (2 * cfg.maxAttempts - 1) * Sum(s.runs, RunOf(t)))
    ensures forall k {:trigger trace[i].ledger[k]} :: 0 <= k < |trace[i].ledger| ==> Owned(trace[i].runs, trace[i].ledger[k])
    ensures forall k, l :: 0 <= k < l < |trace[i].ledger| && trace[i].ledger[k].run == trace[i].ledger[l].run ==>
              && trace[i].ledger[k].Completion? && trace[i].ledger[l].FailureRecord?
              && Increment(trace[i].ledger[l]) == 1 && trace[i].ledger[l].ticket in trace[i].statusEdited
  {
    hide Invariant, Owned, Increment, Sum;
    InvariantAlways(cfg, trace, actions, i);
    CountIsBounded(cfg, trace[i], t);
    EntriesOfRuns(cfg, trace[i]);
  }

  lemma CountIsBounded(cfg: Settings, s: State, t: TicketId)
    requires ValidSettings(cfg) && Invariant(cfg, s) && t in s.db.rows
    ensures s.db.rows[t].retryCount <= 2 * cfg.maxAttempts * Sum(s.runs, RunOf(t))
    ensures t !in s.statusEdited ==> s.db.rows[t].retryCount <= (2 * cfg.maxAttempts - 1) * Sum(s.runs, RunOf(t))
  {
    RetryCountBound(cfg, s, t);
    SumBelow(s.runs, ReportingRunOf(t), RunOf(t));
    ScaleBound(2 * cfg.maxAttempts, Sum(s.runs, ReportingRunOf(t)), Sum(s.runs, RunOf(t)));
    ScaleBound(2 * cfg.maxAttempts - 1, Sum(s.runs, ReportingRunOf(t)), Sum(s.runs, RunOf(t)));
  }

  lemma EntriesOfRuns(cfg: Settings, s: State)
    requires Invariant(cfg, s)
    ensures forall k {:trigger s.ledger[k]} :: 0 <= k < |s.ledger| ==> Owned(s.runs, s.ledger[k])
    ensures forall k, l :: 0 <= k < l < |s.ledger| && s.ledger[k].run == s.ledger[l].run ==>
              && s.ledger[k].Completion? && s.ledger[l].FailureRecord?
              && Increment(s.ledger[l]) == 1 && s.ledger[l].ticket in s.statusEdited
  {
    forall k, l | 0 <= k < l < |s.ledger| && s.ledger[k].run == s.ledger[l].run
      ensures s.ledger[k].Completion? && s.ledger[l].FailureRecord?
      ensures Increment(s.ledger[l]) == 1 && s.ledger[l].ticket in s.statusEdited
    {
      assert MayFollow(s.ledger[k], s.ledger[l], s.statusEdited);
    }
  }

  // ---------- what a row shows ----------

  /**
   In every reachable state a row is routed consistently. Its model, tokens, cost and time are all
   unset, or all from its latest completion, whatever agents did; so are urgency, category, queue and
   confidence unless an agent corrected them. Unless an agent set its status, a complete ticket was
   completed exactly once and a failed one has a dead letter.
   */
  lemma RowsTellTheTruth(cfg: Settings, trace: seq<State>, actions: seq<Action>, i: nat, t: TicketId)
    requires ValidSettings(cfg) && Behaviour(cfg, trace, actions) && i <= |actions|
    requires t in trace[i].db.rows
    ensures var s, row := trace[i], trace[i].db.rows[t];
            var last := LastCompletion(s.ledger, t);
            && Routed(row)
            && MeasuredBy(row, last)
            && (t !in s.corrected ==> ClassifiedBy(row, last))
            && (t !in s.statusEdited ==>
                  && Completions(s.ledger, t) == (if row.status == Complete then 1 else 0)
                  && (row.status == Complete ==> last.Some?)
                  && (row.status == Failed ==> HasLetterFor(s.db.dead, t)))
  {
    InvariantAlways(cfg, trace, actions, i);
    assert RowHistory(trace[i].db.rows[t], t, trace[i]);
  }

  // ---------- nobody waits forever ----------

  /** When all runs of a dispatched ticket have ended, it is complete, or failed with a dead letter. */
  lemma EndedRunsDecideTheTicket(cfg: Settings, trace: seq<State>, actions: seq<Action>, i: nat, t: TicketId)
    requires ValidSettings(cfg) && Behaviour(cfg, trace, actions) && i <= |actions|
    requires var s := trace[i];
             && t in s.db.rows && Dispatched(s.runs, t) && t !in s.statusEdited && t !in s.lost
             && forall r {:trigger s.runs[r]} :: 0 <= r < |s.runs| && s.runs[r].ticket == t ==> Finished(s.runs[r].pc)
    ensures var row := trace[i].db.rows[t];
            row.status == Complete || (row.status == Failed && HasLetterFor(trace[i].db.dead, t))
  {
    InvariantAlways(cfg, trace, actions, i);
    assert Attended(cfg, trace[i], t);
    assert RowHistory(trace[i].db.rows[t], t, trace[i]);
  }

  /**
   A failure recorded with a retry to come is followed by that retry, one recorded as final by none,
   unless the worker dies in between; and whatever is retried was a database or connection fault.
   */
  lemma RetriesHappenAsRecorded(cfg: Settings, trace: seq<State>, actions: seq<Action>, i: nat, k: nat, r: RunId)
    requires ValidSettings(cfg) && Behaviour(cfg, trace, actions) && i <= |actions|
    requires k < |trace[i].ledger| && trace[i].ledger[k].FailureRecord? && trace[i].ledger[k].run == r
    ensures r < |trace[i].runs|
    ensures var pc, announced := trace[i].runs[r].pc, trace[i].ledger[k].willRetry;
            && (pc.Retried? ==> announced)
            && (pc.Ended? ==> !announced)
            && (Finished(pc) && !pc.Lost? ==> pc.Retried? || pc.Ended?)
            && (pc.Retried? ==> pc.error in {SqlAlchemyFault, ConnectionFault, TimeoutFault,
                                             FromService(Provider(ConnectionBroken))})
  {
    InvariantAlways(cfg, trace, actions, i);
    assert AnnouncementHolds(cfg, trace[i].runs, trace[i].ledger[k]);
    if trace[i].runs[r].pc.Retried? {
      OnlyConnectionFaultsAreRetried(cfg, trace[i], r);
    }
  }

  ghost function WorkerSteps(actions: seq<Action>): nat {
    if actions == [] then 0
    else WorkerSteps(actions[..|actions| - 1]) + if WorkerAction(actions[|actions| - 1]) then 1 else 0
  }

  ghost function Deliveries(actions: seq<Action>): nat {
    if actions == [] then 0
    else Deliveries(actions[..|actions| - 1]) + if Delivery(actions[|actions| - 1]) then 1 else 0
  }

  /** A fixed allowance for each delivery. */
  ghost function Allowance(actions: seq<Action>, k: nat): nat {
    if actions == [] then 0
    else Allowance(actions[..|actions| - 1], k) + if Delivery(actions[|actions| - 1]) then k else 0
  }

  lemma {:induction false} AllowanceIsProduct(actions: seq<Action>, k: nat)
    ensures Allowance(actions, k) == k * Deliveries(actions)
  {
    if actions == [] {
    } else {
      AllowanceIsProduct(actions[..|actions| - 1], k);
    }
  }

  lemma OneMoreAction(actions: seq<Action>, i: nat, k: nat)
    requires 0 < i <= |actions|
    ensures WorkerSteps(actions[..i]) == WorkerSteps(actions[..i - 1]) + if WorkerAction(actions[i - 1]) then 1 else 0
    ensures Allowance(actions[..i], k) == Allowance(actions[..i - 1], k) + if Delivery(actions[i - 1]) then k else 0
  {
    assert actions[..i][..i - 1] == actions[..i - 1];
  }

  lemma {:induction false} WorkWithinAllowance(cfg: Settings, trace: seq<State>, actions: seq<Action>, i: nat)
    requires ValidSettings(cfg) && Behaviour(cfg, trace, actions) && i <= |actions|
    ensures WorkerSteps(actions[..i]) + Work(cfg, trace[i]) <= Allowance(actions[..i], StepsPerDelivery(cfg))
  {
    if i == 0 {
      assert Work(cfg, INIT) == 0;
    } else {
      hide Apply, Enabled, Invariant, LockDiscipline, Work, WorkerSteps, Allowance, StepsPerDelivery;
      WorkWithinAllowance(cfg, trace, actions, i - 1);
      StepAt(cfg, trace, actions, i - 1);
      WorkDecreases(cfg, trace[i - 1], actions[i - 1]);
      OneMoreAction(actions, i, StepsPerDelivery(cfg));
    }
  }

  /** The workers take at most 11 * maxRetries + 10 steps per delivery, so they stop once deliveries do. */
  lemma WorkersTerminate(cfg: Settings, trace: seq<State>, actions: seq<Action>)
    requires ValidSettings(cfg) && Behaviour(cfg, trace, actions)
    ensures WorkerSteps(actions) <= StepsPerDelivery(cfg) * Deliveries(actions)
  {
    WorkWithinAllowance(cfg, trace, actions, |actions|);
    assert actions[..|actions|] == actions;
    AllowanceIsProduct(actions, StepsPerDelivery(cfg));
  }

  /** Without redelivery a task stays within the provider calls of its retries. */
  lemma TasksStayInBudget(cfg: Settings, trace: seq<State>, actions: seq<Action>, i: nat, task: TaskId)
    requires ValidSettings(cfg) && Behaviour(cfg, trace, actions) && i <= |actions|
    requires task !in trace[i].redelivered
    ensures Sum(trace[i].runs, CallsOf(task)) <= 2 * cfg.maxAttempts * (cfg.taskMaxRetries + 1)
  {
    InvariantAlways(cfg, trace, actions, i);
    ProviderCallsBound(cfg, trace[i], task);
  }
}
