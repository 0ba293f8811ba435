/** The budgets that bound one run, one task and one ticket's retry count. */
module ProtocolBudgets {
  import opened Domain
  import opened RetryEngine
  import opened Protocol
  import opened ProtocolSafety

  // ---------- sums over the runs ----------

  ghost function Sum(runs: seq<Run>, f: Run -> nat): nat {
    if runs == [] then 0 else Sum(runs[..|runs| - 1], f) + f(runs[|runs| - 1])
  }

  lemma SumAppend(runs: seq<Run>, run: Run, f: Run -> nat)
    ensures Sum(runs + [run], f) == Sum(runs, f) + f(run)
  {
  }

  lemma {:induction false} SumUpdate(runs: seq<Run>, r: RunId, run: Run, f: Run -> nat)
    requires r < |runs|
    ensures Sum(runs[r := run], f) + f(runs[r]) == Sum(runs, f) + f(run)
  {
    var n := |runs| - 1;
    if r == n {
      assert runs[r := run][..n] == runs[..n];
    } else {
      SumUpdate(runs[..n], r, run, f);
      assert runs[r := run][..n] == runs[..n][r := run];
    }
  }

  lemma {:induction false} SumZero(runs: seq<Run>, f: Run -> nat)
    requires forall r :: 0 <= r < |runs| ==> f(runs[r]) == 0
    ensures Sum(runs, f) == 0
  {
    if runs == [] {
    } else {
      SumZero(runs[..|runs| - 1], f);
    }
  }

  lemma {:induction false} SumScaled(runs: seq<Run>, f: Run -> nat, g: Run -> nat, k: nat)
    requires forall r :: 0 <= r < |runs| ==> f(runs[r]) <= k * g(runs[r])
    ensures Sum(runs, f) <= k * Sum(runs, g)
  {
    if runs == [] {
    } else {
      var n := |runs| - 1;
      SumScaled(runs[..n], f, g, k);
      assert f(runs[n]) <= k * g(runs[n]);
    }
  }

  lemma {:induction false} SumBelow(runs: seq<Run>, f: Run -> nat, g: Run -> nat)
    requires forall r :: 0 <= r < |runs| ==> f(runs[r]) <= g(runs[r])
    ensures Sum(runs, f) <= Sum(runs, g)
  {
    if runs == [] {
    } else {
      SumBelow(runs[..|runs| - 1], f, g);
    }
  }

  // ---------- bounds on one run ----------

  /** The error a run is dealing with, if any. */
  function ErrorOf(pc: Pc): Option<TaskError> {
    match pc
    case Failing(e) => Some(e)
    case Recording(e, _) => Some(e)
    case Inserting(e, _, _) => Some(e)
    case Recorded(e) => Some(e)
    case Retried(e) => Some(e)
    case Ended(e) => Some(e)
    case _ => None
  }

  /** Both models failed for good. */
  predicate Exhaustion(e: TaskError) { e.FromService? && e.error.AllModelsFailed? }

  /** Both retry layers stay within the two budgets of one classification, and the engine's errors are final. */
  ghost predicate WithinBudgets(cfg: Settings, run: Run) {
    && run.calls <= 2 * cfg.maxAttempts
    && (run.pc.Queued? || run.pc.Claiming? || run.pc.Classifying? ==> run.calls == 0)
    && (run.pc.HasResult? || run.pc.Finalising? ==> run.pc.result.attempts == Max(1, run.calls))
    && (ErrorOf(run.pc).Some? ==>
          var e := ErrorOf(run.pc).value;
          && RetryIncrement(e) < 2 * cfg.maxAttempts
          && (e.FromService? ==> !RetryableService(e.error) && !e.error.RetriesExhausted? && !e.error.LoopExited?)
          && (Exhaustion(e) ==> e.error.attempts == run.calls == 2 * cfg.maxAttempts))
    && (run.pc.Retried? ==> TaskRetryable(run.pc.error))
  }

  ghost predicate Budgets(cfg: Settings, s: State) {
    && (forall r {:trigger s.runs[r]} :: 0 <= r < |s.runs| ==> WithinBudgets(cfg, s.runs[r]))
    && (forall i :: 0 <= i < |s.ledger| ==> Increment(s.ledger[i]) < 2 * cfg.maxAttempts)
  }

  lemma WorkerStepBudget(cfg: Settings, s: State, a: Action)
    requires ValidSettings(cfg) && Enabled(cfg, s, a) && WorkerAction(a) && Budgets(cfg, s)
    ensures ActingRun(a) < |s.runs|
    ensures WithinBudgets(cfg, Apply(cfg, s, a).runs[ActingRun(a)])
  {
    assert WithinBudgets(cfg, s.runs[ActingRun(a)]);
    if a.Classify? {
      ClassifyStepBudget(cfg, s, a.r, a.script);
    } else if ClassifyingStep(a) {
      ClassifyingStepBudget(cfg, s, a);
    } else {
      RecordingStepBudget(cfg, s, a);
    }
  }

  lemma ClassifyStepBudget(cfg: Settings, s: State, r: RunId, script: seq<Outcome>)
    requires ValidSettings(cfg) && 2 * cfg.maxAttempts <= |script|
    requires r < |s.runs| && s.runs[r].pc.Classifying? && WithinBudgets(cfg, s.runs[r])
    ensures WithinBudgets(cfg, AfterClassify(cfg, s, r, script).runs[r])
  {
    EngineErrorsAreFinal(cfg, script);
  }

  lemma ClassifyingStepBudget(cfg: Settings, s: State, a: Action)
    requires ValidSettings(cfg) && Enabled(cfg, s, a) && ClassifyingStep(a) && !a.Classify?
    requires WithinBudgets(cfg, s.runs[ActingRun(a)])
    ensures WithinBudgets(cfg, Apply(cfg, s, a).runs[ActingRun(a)])
  {
  }

  lemma RecordingStepBudget(cfg: Settings, s: State, a: Action)
    requires ValidSettings(cfg) && Enabled(cfg, s, a) && WorkerAction(a) && !ClassifyingStep(a)
    requires WithinBudgets(cfg, s.runs[ActingRun(a)])
    ensures WithinBudgets(cfg, Apply(cfg, s, a).runs[ActingRun(a)])
  {
    if a.DatabaseFault? {
      FaultStepBudget(cfg, s, a.r, a.fault, a.calls);
    } else if a.Crash? {
      CrashStepBudget(cfg, s, a.r, a.calls);
    }
  }

  lemma FaultStepBudget(cfg: Settings, s: State, r: RunId, fault: TaskError, calls: nat)
    requires ValidSettings(cfg) && r < |s.runs| && WithinBudgets(cfg, s.runs[r])
    requires CallsCutShort(cfg, s.runs[r].pc, calls) && !fault.FromService?
    ensures WithinBudgets(cfg, AfterFault(cfg, WithCalls(s, r, calls), r, fault).runs[r])
  {
  }

  lemma CrashStepBudget(cfg: Settings, s: State, r: RunId, calls: nat)
    requires ValidSettings(cfg) && r < |s.runs| && WithinBudgets(cfg, s.runs[r])
    requires CallsCutShort(cfg, s.runs[r].pc, calls)
    ensures WithinBudgets(cfg, AfterCrash(WithCalls(s, r, calls), r).runs[r])
  {
  }

  lemma BudgetsStep(cfg: Settings, s: State, a: Action)
    requires ValidSettings(cfg) && Enabled(cfg, s, a) && Budgets(cfg, s)
    ensures Budgets(cfg, Apply(cfg, s, a))
  {
    hide Apply, Enabled, Increment;
    if WorkerAction(a) {
      WorkerStepShape(cfg, s, a);
      WorkerStepBudget(cfg, s, a);
      LedgerGrowsWithinBudget(cfg, s, a);
    } else {
      EnvironmentStepShape(cfg, s, a);
    }
  }

  lemma LedgerGrowsWithinBudget(cfg: Settings, s: State, a: Action)
    requires ValidSettings(cfg) && Enabled(cfg, s, a) && WorkerAction(a) && Budgets(cfg, s)
    ensures var ledger, ledger' := s.ledger, Apply(cfg, s, a).ledger;
            ledger' == ledger || (|ledger'| == |ledger| + 1 && ledger' == ledger + [ledger'[|ledger|]]
                                  && Increment(ledger'[|ledger|]) < 2 * cfg.maxAttempts)
  {
  }

  /** The outer layer retries database and connection faults only, never provider exhaustion. */
  lemma OnlyConnectionFaultsAreRetried(cfg: Settings, s: State, r: RunId)
    requires Budgets(cfg, s) && r < |s.runs| && s.runs[r].pc.Retried?
    ensures s.runs[r].pc.error in
      {SqlAlchemyFault, ConnectionFault, TimeoutFault, FromService(Provider(ConnectionBroken))}
  {
    assert WithinBudgets(cfg, s.runs[r]);
  }

  // ---------- what the environment leaves alone ----------

  lemma EnvironmentStepShape(cfg: Settings, s: State, a: Action)
    requires ValidSettings(cfg) && Enabled(cfg, s, a) && !WorkerAction(a)
    ensures var s' := Apply(cfg, s, a);
            && s'.ledger == s.ledger && s.statusEdited <= s'.statusEdited
            && (|| s'.runs == s.runs
                || (&& |s'.runs| == |s.runs| + 1
                    && s'.runs == s.runs + [s'.runs[|s.runs|]]
                    && s'.runs[|s.runs|].pc == Queued && s'.runs[|s.runs|].calls == 0
                    && (a.Dispatch? || a.StartInline? || a.Redeliver?)))
  {
  }

  lemma ScaleBound(k: nat, m: nat, n: nat)
    requires m <= n
    ensures k * m <= k * n
  {
  }

  // ---------- provider calls of one task ----------

  function DeliveryOf(task: TaskId): Run -> nat {
    (run: Run) => if run.task == task then 1 else 0
  }

  function CallsOf(task: TaskId): Run -> nat {
    (run: Run) => if run.task == task then run.calls else 0
  }

  /**
   A task that the broker delivered once per publication has one run per retry so far: all but
   the latest were retried, and the latest has the highest retry number.
   */
  ghost predicate RetryChain(cfg: Settings, s: State, task: TaskId) {
    && Sum(s.runs, DeliveryOf(task)) <= cfg.taskMaxRetries + 1
    && (forall r {:trigger s.runs[r]} :: 0 <= r < |s.runs| && s.runs[r].task == task && !s.runs[r].pc.Retried? ==>
          s.runs[r].retries + 1 == Sum(s.runs, DeliveryOf(task)))
    && (forall q, r {:trigger s.runs[q], s.runs[r]} :: 0 <= q < r < |s.runs| && s.runs[q].task == task == s.runs[r].task ==>
          s.runs[q].pc.Retried? || s.runs[r].pc.Retried?)
  }

  ghost predicate RetryChains(cfg: Settings, s: State) {
    forall task :: task !in s.redelivered ==> RetryChain(cfg, s, task)
  }

  lemma PublishKeepsOtherChains(cfg: Settings, s: State, s': State, task: TaskId)
    requires RetryChain(cfg, s, task)
    requires |s'.runs| == |s.runs| + 1 && s'.runs == s.runs + [s'.runs[|s.runs|]] && s'.runs[|s.runs|].task != task
    ensures RetryChain(cfg, s', task)
  {
  }

  lemma MoveKeepsChain(cfg: Settings, s: State, s': State, r: RunId, task: TaskId)
    requires RetryChain(cfg, s, task) && r < |s.runs| && |s'.runs| == |s.runs|
    requires s'.runs == s.runs[r := s'.runs[r]]
    requires s'.runs[r].task == s.runs[r].task && s'.runs[r].retries == s.runs[r].retries
    requires s.runs[r].pc.Retried? <==> s'.runs[r].pc.Retried?
    ensures RetryChain(cfg, s', task)
  {
    SumUpdate(s.runs, r, s'.runs[r], DeliveryOf(task));
    assert forall q {:trigger s'.runs[q]} :: 0 <= q < |s.runs| && q != r ==> s'.runs[q] == s.runs[q];
  }

  lemma RetryExtendsChain(cfg: Settings, s: State, r: RunId)
    requires r < |s.runs| && s.runs[r].pc.Recorded?
    requires WillRetry(cfg, s.runs[r].task, s.runs[r].retries, s.runs[r].pc.error)
    requires RetryChain(cfg, s, s.runs[r].task)
    ensures RetryChain(cfg, AfterDecide(cfg, s, r), s.runs[r].task)
  {
    var s', run := AfterDecide(cfg, s, r), s.runs[r];
    SumUpdate(s.runs, r, run.(pc := Retried(run.pc.error)), DeliveryOf(run.task));
    SumAppend(s.runs[r := run.(pc := Retried(run.pc.error))], s'.runs[|s.runs|], DeliveryOf(run.task));
  }

  lemma DecideKeepsChain(cfg: Settings, s: State, r: RunId, task: TaskId)
    requires r < |s.runs| && s.runs[r].pc.Recorded? && RetryChain(cfg, s, task)
    ensures RetryChain(cfg, AfterDecide(cfg, s, r), task)
  {
    var s', run := AfterDecide(cfg, s, r), s.runs[r];
    if !WillRetry(cfg, run.task, run.retries, run.pc.error) {
      MoveKeepsChain(cfg, s, s', r, task);
    } else if task == run.task {
      RetryExtendsChain(cfg, s, r);
    } else {
      SumUpdate(s.runs, r, run.(pc := Retried(run.pc.error)), DeliveryOf(task));
      SumAppend(s.runs[r := run.(pc := Retried(run.pc.error))], s'.runs[|s.runs|], DeliveryOf(task));
    }
  }

  lemma FreshTaskChain(cfg: Settings, s: State, task: TaskId, t: TicketId)
    requires forall r :: 0 <= r < |s.runs| ==> s.runs[r].task != task
    ensures RetryChain(cfg, AfterDispatch(s, task, t), task)
  {
    SumZero(s.runs, DeliveryOf(task));
    SumAppend(s.runs, Run(task, t, 0, 0, Queued), DeliveryOf(task));
  }

  lemma CrashKeepsOtherChains(cfg: Settings, s: State, r: RunId, task: TaskId)
    requires r < |s.runs| && !s.runs[r].pc.Retried? && RetryChain(cfg, s, task)
    requires s.runs[r].task.Celery? ==> task != s.runs[r].task
    ensures RetryChain(cfg, AfterCrash(s, r), task)
  {
    var s' := AfterCrash(s, r);
    var mid := Rollback(s, r, Lost);
    MoveKeepsChain(cfg, s, mid, r, task);
    if s.runs[r].task.Celery? {
      PublishKeepsOtherChains(cfg, mid, s', task);
    }
  }

  lemma RetryChainsStep(cfg: Settings, s: State, a: Action)
    requires ValidSettings(cfg) && Enabled(cfg, s, a) && LockDiscipline(cfg, s) && RetryChains(cfg, s)
    ensures RetryChains(cfg, Apply(cfg, s, a))
  {
    hide RetryChain;
    var s' := Apply(cfg, s, a);
    RedeliveredGrows(cfg, s, a);
    forall task | task !in s'.redelivered
      ensures RetryChain(cfg, s', task)
    {
      assert RetryChain(cfg, s, task);
      if a.Decide? {
        DecideKeepsChain(cfg, s, a.r, task);
      } else if a.Crash? {
        var called := WithCalls(s, a.r, a.calls);
        MoveKeepsChain(cfg, s, called, a.r, task);
        CrashKeepsOtherChains(cfg, called, a.r, task);
      } else if WorkerAction(a) {
        WorkerStepShape(cfg, s, a);
        RetriedOnlyByDecide(cfg, s, a);
        MoveKeepsChain(cfg, s, s', ActingRun(a), task);
      } else {
        EnvironmentKeepsChain(cfg, s, a, task);
      }
    }
  }

  lemma RedeliveredGrows(cfg: Settings, s: State, a: Action)
    requires ValidSettings(cfg) && Enabled(cfg, s, a)
    ensures s.redelivered <= Apply(cfg, s, a).redelivered
    ensures a.Crash? && s.runs[a.r].task.Celery? ==> s.runs[a.r].task in Apply(cfg, s, a).redelivered
    ensures a.Redeliver? ==> s.runs[a.r].task in Apply(cfg, s, a).redelivered
  {
  }

  lemma RetriedOnlyByDecide(cfg: Settings, s: State, a: Action)
    requires ValidSettings(cfg) && Enabled(cfg, s, a) && WorkerAction(a) && !a.Decide?
    ensures ActingRun(a) < |s.runs|
    ensures !s.runs[ActingRun(a)].pc.Retried? && !Apply(cfg, s, a).runs[ActingRun(a)].pc.Retried?
  {
  }

  lemma EnvironmentKeepsChain(cfg: Settings, s: State, a: Action, task: TaskId)
    requires ValidSettings(cfg) && Enabled(cfg, s, a) && !WorkerAction(a) && LockDiscipline(cfg, s)
    requires RetryChain(cfg, s, task) && task !in Apply(cfg, s, a).redelivered
    ensures RetryChain(cfg, Apply(cfg, s, a), task)
  {
    EnvironmentStepShape(cfg, s, a);
    var s' := Apply(cfg, s, a);
    if |s'.runs| > |s.runs| {
      if s'.runs[|s.runs|].task != task {
        PublishKeepsOtherChains(cfg, s, s', task);
      } else {
        RedeliveredGrows(cfg, s, a);
        FreshTaskChain(cfg, s, task, a.t);
      }
    }
  }

  /** Without redelivery a task makes at most (maxRetries + 1) * 2 * maxAttempts provider calls. */
  lemma ProviderCallsBound(cfg: Settings, s: State, task: TaskId)
    requires RetryChains(cfg, s) && Budgets(cfg, s) && task !in s.redelivered
    ensures Sum(s.runs, CallsOf(task)) <= 2 * cfg.maxAttempts * (cfg.taskMaxRetries + 1)
  {
    assert RetryChain(cfg, s, task);
    forall r | 0 <= r < |s.runs|
      ensures CallsOf(task)(s.runs[r]) <= 2 * cfg.maxAttempts * DeliveryOf(task)(s.runs[r])
    {
      assert WithinBudgets(cfg, s.runs[r]);
    }
    SumScaled(s.runs, CallsOf(task), DeliveryOf(task), 2 * cfg.maxAttempts);
    ScaleBound(2 * cfg.maxAttempts, Sum(s.runs, DeliveryOf(task)), cfg.taskMaxRetries + 1);
  }
}
