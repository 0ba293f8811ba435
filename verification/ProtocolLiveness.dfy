/** Termination of the workers, absence of deadlock, and why no ticket is left behind. */
module ProtocolLiveness {
  import opened Domain
  import opened RetryEngine
  import opened Protocol
  import opened ProtocolSafety
  import opened ProtocolBudgets

  // ---------- no ticket is stranded ----------

  /** This run will still complete the ticket, fail it, or hand it to a retry. */
  predicate Responsible(cfg: Settings, run: Run) {
    !Finished(run.pc) && !run.pc.Refreshing? && (run.pc.Recorded? ==> WillRetry(cfg, run.task, run.retries, run.pc.error))
  }

  ghost predicate HasResponsibleRun(cfg: Settings, runs: seq<Run>, t: TicketId) {
    exists r {:trigger runs[r]} :: 0 <= r < |runs| && runs[r].ticket == t && Responsible(cfg, runs[r])
  }

  ghost predicate Dispatched(runs: seq<Run>, t: TicketId) {
    exists r {:trigger runs[r]} :: 0 <= r < |runs| && runs[r].ticket == t
  }

  ghost predicate Undecided(row: Row) { row.status == Pending || row.status == Processing }

  /** A dispatched ticket that is not decided yet has a run that will see to it. */
  ghost predicate Attended(cfg: Settings, s: State, t: TicketId)
    requires t in s.db.rows
  {
    Undecided(s.db.rows[t]) && Dispatched(s.runs, t) && t !in s.statusEdited && t !in s.lost
    ==> HasResponsibleRun(cfg, s.runs, t)
  }

  ghost predicate NobodyStranded(cfg: Settings, s: State) {
    forall t {:trigger s.db.rows[t]} :: t in s.db.rows ==> Attended(cfg, s, t)
  }

  lemma FlagsGrow(cfg: Settings, s: State, a: Action)
    requires ValidSettings(cfg) && Enabled(cfg, s, a)
    ensures s.statusEdited <= Apply(cfg, s, a).statusEdited && s.lost <= Apply(cfg, s, a).lost
  {
  }

  /** A worker's step writes no row but that of its own ticket. */
  lemma WorkerWritesOwnRow(cfg: Settings, s: State, a: Action)
    requires ValidSettings(cfg) && Enabled(cfg, s, a) && WorkerAction(a) && LockDiscipline(cfg, s)
    ensures ActingRun(a) < |s.runs|
    ensures var s' := Apply(cfg, s, a);
            && s'.db.rows.Keys == s.db.rows.Keys
            && forall t {:trigger s'.db.rows[t]} :: t in s.db.rows && t != s.runs[ActingRun(a)].ticket ==>
                 s'.db.rows[t] == s.db.rows[t]
  {
  }

  /**
   What a worker's step leaves to its ticket: the run is still responsible, the ticket is decided,
   its failure is noted as lost, a successor is queued, or the run was not responsible before.
   */
  ghost predicate HandsOver(cfg: Settings, s: State, s': State, r: RunId) {
    && r < |s.runs| && r < |s'.runs| && s'.runs[r].ticket == s.runs[r].ticket
    && var t := s.runs[r].ticket;
       && t in s.db.rows && t in s'.db.rows
       && (|| Responsible(cfg, s'.runs[r])
           || !Undecided(s'.db.rows[t])
           || t in s'.lost
           || (|s'.runs| == |s.runs| + 1 && s'.runs[|s.runs|].ticket == t && s'.runs[|s.runs|].pc.Queued?)
           || (!Responsible(cfg, s.runs[r]) && s'.db.rows[t] == s.db.rows[t]))
  }

  lemma ClassifyingHandsOver(cfg: Settings, s: State, a: Action)
    requires ValidSettings(cfg) && Enabled(cfg, s, a) && ClassifyingStep(a) && LockDiscipline(cfg, s)
    ensures HandsOver(cfg, s, Apply(cfg, s, a), ActingRun(a))
  {
  }

  lemma RecordingHandsOver(cfg: Settings, s: State, a: Action)
    requires ValidSettings(cfg) && Enabled(cfg, s, a) && WorkerAction(a) && LockDiscipline(cfg, s)
    requires !ClassifyingStep(a)
    ensures HandsOver(cfg, s, Apply(cfg, s, a), ActingRun(a))
  {
  }

  lemma HandingOverStrandsNobody(cfg: Settings, s: State, s': State, r: RunId, t: TicketId)
    requires HandsOver(cfg, s, s', r) && t in s.db.rows && t in s'.db.rows && Attended(cfg, s, t)
    requires |s.runs| <= |s'.runs| <= |s.runs| + 1
    requires forall q {:trigger s'.runs[q]} :: 0 <= q < |s.runs| && q != r ==> s'.runs[q] == s.runs[q]
    requires |s.runs| < |s'.runs| ==> s'.runs[|s.runs|].ticket == s.runs[r].ticket && s'.runs[|s.runs|].pc.Queued?
    requires t != s.runs[r].ticket ==> s'.db.rows[t] == s.db.rows[t]
    requires s.statusEdited <= s'.statusEdited && s.lost <= s'.lost
    requires t == s.runs[r].ticket && Undecided(s'.db.rows[t]) ==>
               Undecided(s.db.rows[t]) || Responsible(cfg, s'.runs[r]) || t in s'.lost || |s.runs| < |s'.runs|
    ensures Attended(cfg, s', t)
  {
    if Undecided(s'.db.rows[t]) && Dispatched(s'.runs, t) && t !in s'.statusEdited && t !in s'.lost {
      var mine := t == s.runs[r].ticket;
      if mine && Responsible(cfg, s'.runs[r]) {
        assert s'.runs[r].ticket == t;
      } else if mine && |s.runs| < |s'.runs| {
        assert s'.runs[|s.runs|].ticket == t;
      } else {
        var p :| 0 <= p < |s'.runs| && s'.runs[p].ticket == t;
        var q0 := if mine then r else p;
        assert s.runs[q0].ticket == t;
        var q :| 0 <= q < |s.runs| && s.runs[q].ticket == t && Responsible(cfg, s.runs[q]);
        assert s'.runs[q] == s.runs[q];
      }
    }
  }

  lemma WorkerStrandsNobody(cfg: Settings, s: State, a: Action, t: TicketId)
    requires ValidSettings(cfg) && Enabled(cfg, s, a) && WorkerAction(a)
    requires LockDiscipline(cfg, s) && t in s.db.rows && Attended(cfg, s, t)
    ensures t in Apply(cfg, s, a).db.rows && Attended(cfg, Apply(cfg, s, a), t)
  {
    FlagsGrow(cfg, s, a);
    WorkerStepShape(cfg, s, a);
    WorkerWritesOwnRow(cfg, s, a);
    if ClassifyingStep(a) { ClassifyingHandsOver(cfg, s, a); } else { RecordingHandsOver(cfg, s, a); }
    HandingOverStrandsNobody(cfg, s, Apply(cfg, s, a), ActingRun(a), t);
  }

  lemma EnvironmentStrandsNobody(cfg: Settings, s: State, a: Action, t: TicketId)
    requires ValidSettings(cfg) && Enabled(cfg, s, a) && !WorkerAction(a)
    requires LockDiscipline(cfg, s) && t in s.db.rows && Attended(cfg, s, t)
    ensures t in Apply(cfg, s, a).db.rows && Attended(cfg, Apply(cfg, s, a), t)
  {
    var s' := Apply(cfg, s, a);
    FlagsGrow(cfg, s, a);
    EnvironmentStepShape(cfg, s, a);
    assert t in s'.statusEdited || s'.db.rows[t].status == s.db.rows[t].status;
    if Dispatched(s'.runs, t) && !Dispatched(s.runs, t) {
      var q :| 0 <= q < |s'.runs| && s'.runs[q].ticket == t;
      assert q == |s.runs|;
      assert Responsible(cfg, s'.runs[q]);
    } else if HasResponsibleRun(cfg, s.runs, t) {
      var q :| 0 <= q < |s.runs| && s.runs[q].ticket == t && Responsible(cfg, s.runs[q]);
      assert s'.runs[q] == s.runs[q];
    }
  }

  lemma NobodyStrandedStep(cfg: Settings, s: State, a: Action)
    requires ValidSettings(cfg) && Enabled(cfg, s, a) && LockDiscipline(cfg, s) && NobodyStranded(cfg, s)
    ensures NobodyStranded(cfg, Apply(cfg, s, a))
  {
    var s' := Apply(cfg, s, a);
    forall t | t in s'.db.rows
      ensures Attended(cfg, s', t)
    {
      if t in s.db.rows {
        assert Attended(cfg, s, t);
        if WorkerAction(a) { WorkerStrandsNobody(cfg, s, a, t); }
        else { EnvironmentStrandsNobody(cfg, s, a, t); }
      } else {
        NewTicketIsUndispatched(cfg, s, a, t);
      }
    }
  }

  lemma NewTicketIsUndispatched(cfg: Settings, s: State, a: Action, t: TicketId)
    requires ValidSettings(cfg) && Enabled(cfg, s, a) && LockDiscipline(cfg, s)
    requires t !in s.db.rows && t in Apply(cfg, s, a).db.rows
    ensures !Dispatched(Apply(cfg, s, a).runs, t)
  {
    if WorkerAction(a) { WorkerWritesOwnRow(cfg, s, a); }
    assert a.CreateTicket?;
  }

  // ---------- what was recorded is what happens ----------

  /** A recorded failure announced a retry exactly when its run then retries, unless the worker died. */
  ghost predicate AnnouncementHolds(cfg: Settings, runs: seq<Run>, e: Entry) {
    e.FailureRecord? ==>
      && e.run < |runs|
      && var run := runs[e.run];
         || (run.pc == Recorded(e.error) && (e.willRetry <==> WillRetry(cfg, run.task, run.retries, e.error)))
         || (run.pc == Retried(e.error) && e.willRetry)
         || (run.pc == Ended(e.error) && !e.willRetry)
         || run.pc.Lost?
  }

  ghost predicate Announcements(cfg: Settings, s: State) {
    forall i {:trigger s.ledger[i]} :: 0 <= i < |s.ledger| ==> AnnouncementHolds(cfg, s.runs, s.ledger[i])
  }

  /** A run whose failure is on record moves only from Recorded to the announced end, or is lost. */
  lemma WorkerKeepsAnnouncement(cfg: Settings, s: State, a: Action, e: Entry)
    requires ValidSettings(cfg) && Enabled(cfg, s, a) && WorkerAction(a)
    requires AnnouncementHolds(cfg, s.runs, e)
    ensures AnnouncementHolds(cfg, Apply(cfg, s, a).runs, e)
  {
    WorkerStepShape(cfg, s, a);
    if e.FailureRecord? && e.run == ActingRun(a) {
      assert a.Decide? || a.Crash?;
    }
  }

  ghost predicate NewEntryHolds(cfg: Settings, s: State, s': State) {
    s'.ledger == s.ledger || (|s'.ledger| == |s.ledger| + 1 && s'.ledger[..|s.ledger|] == s.ledger
                              && AnnouncementHolds(cfg, s'.runs, s'.ledger[|s.ledger|]))
  }

  lemma NewEntryAnnounces(cfg: Settings, s: State, a: Action)
    requires ValidSettings(cfg) && Enabled(cfg, s, a) && WorkerAction(a) && LockDiscipline(cfg, s)
    ensures NewEntryHolds(cfg, s, Apply(cfg, s, a))
  {
    if a.Record? {
      RecordAnnounces(cfg, s, a.r);
    } else if a.Insert? {
      InsertAnnounces(cfg, s, a.r);
    }
  }

  lemma RecordAnnounces(cfg: Settings, s: State, r: RunId)
    requires LockDiscipline(cfg, s) && r < |s.runs| && s.runs[r].pc.Recording?
    ensures NewEntryHolds(cfg, s, AfterRecord(cfg, s, r))
  {
  }

  lemma InsertAnnounces(cfg: Settings, s: State, r: RunId)
    requires LockDiscipline(cfg, s) && r < |s.runs| && s.runs[r].pc.Inserting?
    ensures NewEntryHolds(cfg, s, AfterInsert(s, r))
  {
    assert Snapshot(cfg, s, s.runs[r]);
  }

  lemma AnnouncementsStep(cfg: Settings, s: State, a: Action)
    requires ValidSettings(cfg) && Enabled(cfg, s, a) && LockDiscipline(cfg, s) && Announcements(cfg, s)
    ensures Announcements(cfg, Apply(cfg, s, a))
  {
    var s' := Apply(cfg, s, a);
    if WorkerAction(a) {
      NewEntryAnnounces(cfg, s, a);
      forall i | 0 <= i < |s'.ledger|
        ensures AnnouncementHolds(cfg, s'.runs, s'.ledger[i])
      {
        if i < |s.ledger| {
          assert s'.ledger[i] == s.ledger[i];
          WorkerKeepsAnnouncement(cfg, s, a, s.ledger[i]);
        }
      }
    } else {
      EnvironmentStepShape(cfg, s, a);
    }
  }

  // ---------- termination ----------

  /** Where a program point stands on the way to the end of its run. */
  function Rank(pc: Pc): nat {
    match pc
    case Queued => 10
    case Claiming(_) => 9
    case Classifying => 8
    case HasResult(_) => 7
    case Finalising(_, _) => 6
    case Refreshing => 5
    case Failing(_) => 4
    case Recording(_, _) => 3
    case Inserting(_, _, _) => 2
    case Recorded(_) => 1
    case Done => 0
    case Retried(_) => 0
    case Ended(_) => 0
    case Lost => 0
  }

  /** How many steps a run and the retries it may still start can take. */
  function StepsLeft(cfg: Settings): Run -> nat {
    (run: Run) =>
      if Finished(run.pc) || cfg.taskMaxRetries < run.retries then 0
      else 11 * (cfg.taskMaxRetries - run.retries) + Rank(run.pc)
  }

  ghost function Work(cfg: Settings, s: State): nat { Sum(s.runs, StepsLeft(cfg)) }

  function StepsPerDelivery(cfg: Settings): nat { 11 * cfg.taskMaxRetries + 10 }

  predicate Delivery(a: Action) { a.Dispatch? || a.StartInline? || a.Crash? || a.Redeliver? }

  /** The acting run and a retry it may publish have less work left than the run had before. */
  ghost predicate UsesWork(cfg: Settings, s: State, s': State, r: RunId) {
    && r < |s.runs| && r < |s'.runs|
    && var f := StepsLeft(cfg);
       f(s'.runs[r]) + (if |s'.runs| > |s.runs| then f(s'.runs[|s.runs|]) else 0) < f(s.runs[r])
  }

  lemma ClassifyingUsesWork(cfg: Settings, s: State, a: Action)
    requires ValidSettings(cfg) && Enabled(cfg, s, a) && ClassifyingStep(a) && LockDiscipline(cfg, s)
    ensures UsesWork(cfg, s, Apply(cfg, s, a), ActingRun(a))
  {
    if a.LockClaim? || a.LockFinal? {
      LockingUsesWork(cfg, s, a.r);
    } else if a.CommitClaim? {
      ClaimUsesWork(cfg, s, a.r);
    } else if a.CommitFinal? {
      FinalUsesWork(cfg, s, a.r, a.ms);
    }
  }

  lemma LockingUsesWork(cfg: Settings, s: State, r: RunId)
    requires LockDiscipline(cfg, s) && r < |s.runs| && (s.runs[r].pc.Queued? || s.runs[r].pc.HasResult?)
    ensures UsesWork(cfg, s, AfterLock(s, r), r)
  {
  }

  lemma ClaimUsesWork(cfg: Settings, s: State, r: RunId)
    requires LockDiscipline(cfg, s) && r < |s.runs| && s.runs[r].pc.Claiming?
    ensures UsesWork(cfg, s, AfterClaim(s, r), r)
  {
  }

  lemma FinalUsesWork(cfg: Settings, s: State, r: RunId, ms: nat)
    requires LockDiscipline(cfg, s) && r < |s.runs| && s.runs[r].pc.Finalising?
    ensures UsesWork(cfg, s, AfterFinal(s, r, ms), r)
  {
  }

  lemma DecideUsesWork(cfg: Settings, s: State, r: RunId)
    requires LockDiscipline(cfg, s) && r < |s.runs| && s.runs[r].pc.Recorded?
    ensures UsesWork(cfg, s, AfterDecide(cfg, s, r), r)
  {
  }

  lemma FaultUsesWork(cfg: Settings, s: State, r: RunId, fault: TaskError)
    requires LockDiscipline(cfg, s) && r < |s.runs| && CanFault(s.runs[r].pc)
    ensures UsesWork(cfg, s, AfterFault(cfg, s, r, fault), r)
  {
  }

  lemma LockRecordUsesWork(cfg: Settings, s: State, r: RunId)
    requires LockDiscipline(cfg, s) && r < |s.runs| && s.runs[r].pc.Failing?
    ensures UsesWork(cfg, s, AfterLock(s, r), r)
  {
  }

  lemma RecordUsesWork(cfg: Settings, s: State, a: Action)
    requires ValidSettings(cfg) && Enabled(cfg, s, a) && (a.Record? || a.Insert?) && LockDiscipline(cfg, s)
    ensures UsesWork(cfg, s, Apply(cfg, s, a), a.r)
  {
  }

  lemma RecordingUsesWork(cfg: Settings, s: State, a: Action)
    requires ValidSettings(cfg) && Enabled(cfg, s, a) && WorkerAction(a) && LockDiscipline(cfg, s)
    requires !ClassifyingStep(a) && !a.Crash?
    ensures UsesWork(cfg, s, Apply(cfg, s, a), ActingRun(a))
  {
    if a.Decide? {
      DecideUsesWork(cfg, s, a.r);
    } else if a.DatabaseFault? {
      CallsKeepDiscipline(cfg, s, a.r, a.calls);
      FaultUsesWork(cfg, WithCalls(s, a.r, a.calls), a.r, a.fault);
    } else if a.LockRecord? {
      LockRecordUsesWork(cfg, s, a.r);
    } else {
      RecordUsesWork(cfg, s, a);
    }
  }

  lemma CrashAddsOneDelivery(cfg: Settings, s: State, r: RunId)
    requires LockDiscipline(cfg, s) && r < |s.runs| && !Finished(s.runs[r].pc)
    ensures var s', f := AfterCrash(s, r), StepsLeft(cfg);
            && f(s'.runs[r]) == 0 && 1 <= f(s.runs[r])
            && (|s'.runs| > |s.runs| ==> f(s'.runs[|s.runs|]) <= StepsPerDelivery(cfg))
  {
  }

  lemma CrashStepAddsOneDelivery(cfg: Settings, s: State, a: Action)
    requires ValidSettings(cfg) && Enabled(cfg, s, a) && a.Crash? && LockDiscipline(cfg, s)
    ensures a.r < |s.runs| && a.r < |Apply(cfg, s, a).runs|
    ensures var s', f := Apply(cfg, s, a), StepsLeft(cfg);
            && f(s'.runs[a.r]) == 0 && 1 <= f(s.runs[a.r])
            && (|s'.runs| > |s.runs| ==> f(s'.runs[|s.runs|]) <= StepsPerDelivery(cfg))
  {
    CallsKeepDiscipline(cfg, s, a.r, a.calls);
    CrashAddsOneDelivery(cfg, WithCalls(s, a.r, a.calls), a.r);
  }

  /** Every worker step but a crash uses up work; only deliveries add any, at most a fixed amount each. */
  lemma WorkDecreases(cfg: Settings, s: State, a: Action)
    requires ValidSettings(cfg) && Enabled(cfg, s, a) && LockDiscipline(cfg, s)
    ensures Work(cfg, Apply(cfg, s, a)) + (if WorkerAction(a) then 1 else 0)
         <= Work(cfg, s) + (if Delivery(a) then StepsPerDelivery(cfg) else 0)
  {
    if WorkerAction(a) { WorkerWorkDecreases(cfg, s, a); } else { EnvironmentWork(cfg, s, a); }
  }

  lemma WorkerWorkDecreases(cfg: Settings, s: State, a: Action)
    requires ValidSettings(cfg) && Enabled(cfg, s, a) && WorkerAction(a) && LockDiscipline(cfg, s)
    ensures Work(cfg, Apply(cfg, s, a)) + 1 <= Work(cfg, s) + (if a.Crash? then StepsPerDelivery(cfg) else 0)
  {
    hide Apply, Enabled, StepsLeft;
    var s', r, f := Apply(cfg, s, a), ActingRun(a), StepsLeft(cfg);
    WorkerStepShape(cfg, s, a);
    SumUpdate(s.runs, r, s'.runs[r], f);
    if |s'.runs| > |s.runs| {
      SumAppend(s.runs[r := s'.runs[r]], s'.runs[|s.runs|], f);
    }
    if a.Crash? {
      CrashStepAddsOneDelivery(cfg, s, a);
    }
    else if ClassifyingStep(a) { ClassifyingUsesWork(cfg, s, a); }
    else { RecordingUsesWork(cfg, s, a); }
  }

  lemma EnvironmentWork(cfg: Settings, s: State, a: Action)
    requires ValidSettings(cfg) && Enabled(cfg, s, a) && !WorkerAction(a) && LockDiscipline(cfg, s)
    ensures Work(cfg, Apply(cfg, s, a)) <= Work(cfg, s) + (if Delivery(a) then StepsPerDelivery(cfg) else 0)
  {
    EnvironmentStepShape(cfg, s, a);
    NewRunWork(cfg, s.runs, Apply(cfg, s, a).runs);
  }

  lemma NewRunWork(cfg: Settings, runs: seq<Run>, runs': seq<Run>)
    requires runs' == runs || (|runs'| == |runs| + 1 && runs' == runs + [runs'[|runs|]] && runs'[|runs|].pc.Queued?)
    ensures Sum(runs', StepsLeft(cfg)) <= Sum(runs, StepsLeft(cfg)) + (if runs' == runs then 0 else StepsPerDelivery(cfg))
  {
  }

  // ---------- no deadlock ----------

  /** The step that moves a run on when nothing fails. */
  function OwnStep(r: RunId, pc: Pc): Action
    requires Locked(pc)
  {
    match pc
    case Claiming(_) => CommitClaim(r)
    case Finalising(_, _) => CommitFinal(r, 0)
    case Recording(_, _) => Record(r)
    case Inserting(_, _, _) => Insert(r)
  }

  /**
   As long as a run is unfinished somebody can move without a fault: the run itself, or the
   owner of the row lock it waits for. A run that classifies can take whatever the provider
   answers, and it can do without a provider.
   */
  lemma NoDeadlock(cfg: Settings, s: State, r: RunId, script: seq<Outcome>) returns (a: Action)
    requires ValidSettings(cfg) && LockDiscipline(cfg, s) && 2 * cfg.maxAttempts <= |script|
    requires r < |s.runs| && !Finished(s.runs[r].pc)
    ensures Enabled(cfg, s, a)
    ensures (WorkerAction(a) && !a.Crash? && !a.DatabaseFault?) || a.CommitEdit?
    ensures s.runs[r].pc.Classifying? ==> a == Classify(r, script)
    ensures s.runs[r].pc.Classifying? ==> forall c {:trigger ClassifyLocally(r, c)} :: Enabled(cfg, s, ClassifyLocally(r, c))
  {
    var run := s.runs[r];
    if Locked(run.pc) {
      a := OwnStep(r, run.pc);
    } else if run.pc.Classifying? {
      a := Classify(r, script);
    } else if run.pc.Refreshing? {
      a := Refresh(r);
    } else if run.pc.Recorded? {
      a := Decide(r);
    } else if run.ticket !in s.db.locks {
      a := if run.pc.Queued? then LockClaim(r) else if run.pc.HasResult? then LockFinal(r) else LockRecord(r);
    } else {
      match s.db.locks[run.ticket]
      case ByRun(q) => a := OwnStep(q, s.runs[q].pc);
      case ByEdit(e) => a := CommitEdit(e);
    }
  }
}
