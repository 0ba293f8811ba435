/** A run of the protocol that shows why the bound on retry counts needs its condition. */
module ProtocolExamples {
  import opened Domain
  import opened RetryEngine
  import opened Protocol
  import opened ProtocolBudgets
  import opened ProtocolLedger

  const NEW_TICKET := NewRow("title", "description", 0, None)

  const CLASSIFICATION := Classification(Low, General, 0.5)

  /** The provider times out until the last attempt of the fallback model answers. */
  function LateAnswer(cfg: Settings): seq<Outcome>
    requires ValidSettings(cfg)
  {
    seq(2 * cfg.maxAttempts - 1, _ => Fault(TimedOut)) + [Answer(Response(CLASSIFICATION, None, None, None, None, None))]
  }

  lemma LateAnswerIsCounted(cfg: Settings)
    requires ValidSettings(cfg)
    ensures CallsMade(cfg, LateAnswer(cfg)) == 2 * cfg.maxAttempts
    ensures Scan(cfg, LateAnswer(cfg)).Success? && Scan(cfg, LateAnswer(cfg)).result.attempts == 2 * cfg.maxAttempts
  {
    FirstDecisiveOutcomeWins(cfg, LateAnswer(cfg), 2 * cfg.maxAttempts - 1);
  }

  function LateResult(cfg: Settings): Result
    requires ValidSettings(cfg)
  {
    LateAnswerIsCounted(cfg);
    Scan(cfg, LateAnswer(cfg)).result
  }

  /** The system with one ticket, one run and perhaps one edit. */
  function Scene(row: Row, locks: map<TicketId, Owner>, pc: Pc, calls: nat, edits: seq<Edit>, dead: seq<DeadLetter>,
                 ledger: seq<Entry>): State
  {
    State(Shared(map[1 := row], locks, dead), [Run(Celery(0), 1, 0, calls, pc)], edits, map[Celery(0) := 1], ledger,
          if edits != [] && !edits[0].open then {1} else {}, {}, {}, {})
  }

  function Processing(): Row { NEW_TICKET.(status := Status.Processing) }

  function Completed(cfg: Settings): Row
    requires ValidSettings(cfg)
  {
    CompletedRow(Processing(), LateResult(cfg), 0)
  }

  function Reopened(cfg: Settings): Row
    requires ValidSettings(cfg)
  {
    Completed(cfg).(status := Pending)
  }

  function Failed(cfg: Settings): Row
    requires ValidSettings(cfg)
  {
    FailedRow(Reopened(cfg), 1, false)
  }

  const UNLOCKED: map<TicketId, Owner> := map[]
  const LOCKED_BY_RUN: map<TicketId, Owner> := map[1 := ByRun(0)]
  const LOCKED_BY_EDIT: map<TicketId, Owner> := map[1 := ByEdit(0)]

  /** The steps of the run: it classifies with the last attempt, completes, and fails to read the reopened ticket back. */
  function ActionAt(cfg: Settings, i: nat): Action
    requires ValidSettings(cfg) && i < 13
  {
    if i == 0 then CreateTicket(1, "title", "description", 0, None)
    else if i == 1 then Dispatch(1, 0)
    else if i == 2 then LockClaim(0)
    else if i == 3 then CommitClaim(0)
    else if i == 4 then Classify(0, LateAnswer(cfg))
    else if i == 5 then LockFinal(0)
    else if i == 6 then CommitFinal(0, 0)
    else if i == 7 then OpenEdit(1, SetStatus(Pending))
    else if i == 8 then CommitEdit(0)
    else if i == 9 then DatabaseFault(0, UnexpectedFault, 0)
    else if i == 10 then LockRecord(0)
    else if i == 11 then Record(0)
    else Insert(0)
  }

  function Reopening(cfg: Settings, open: bool): seq<Edit>
    requires ValidSettings(cfg)
  {
    [Edit(1, SetStatus(Pending), Completed(cfg), open)]
  }

  function CompletionOnly(cfg: Settings): seq<Entry>
    requires ValidSettings(cfg)
  {
    [Completion(0, 1, LateResult(cfg), 0)]
  }

  function StateAt(cfg: Settings, i: nat): State
    requires ValidSettings(cfg) && i < 14
  {
    var m, done := 2 * cfg.maxAttempts, CompletionOnly(cfg);
    if i == 0 then INIT
    else if i == 1 then AfterCreate(INIT, 1, NEW_TICKET)
    else if i == 2 then Scene(NEW_TICKET, UNLOCKED, Queued, 0, [], [], [])
    else if i == 3 then Scene(NEW_TICKET, LOCKED_BY_RUN, Claiming(NEW_TICKET), 0, [], [], [])
    else if i == 4 then Scene(Processing(), UNLOCKED, Classifying, 0, [], [], [])
    else if i == 5 then Scene(Processing(), UNLOCKED, HasResult(LateResult(cfg)), m, [], [], [])
    else if i == 6 then Scene(Processing(), LOCKED_BY_RUN, Finalising(LateResult(cfg), Processing()), m, [], [], [])
    else if i == 7 then Scene(Completed(cfg), UNLOCKED, Refreshing, m, [], [], done)
    else if i == 8 then Scene(Completed(cfg), LOCKED_BY_EDIT, Refreshing, m, Reopening(cfg, true), [], done)
    else if i == 9 then Scene(Reopened(cfg), UNLOCKED, Refreshing, m, Reopening(cfg, false), [], done)
    else if i == 10 then Scene(Reopened(cfg), UNLOCKED, Failing(UnexpectedFault), m, Reopening(cfg, false), [], done)
    else if i == 11 then
      Scene(Reopened(cfg), LOCKED_BY_RUN, Recording(UnexpectedFault, Reopened(cfg)), m, Reopening(cfg, false), [], done)
    else if i == 12 then
      Scene(Reopened(cfg), LOCKED_BY_RUN, Inserting(UnexpectedFault, Failed(cfg), false), m, Reopening(cfg, false), [], done)
    else
      Scene(Failed(cfg), UNLOCKED, Recorded(UnexpectedFault), m, Reopening(cfg, false), [DeadLetter(1, Celery(0), m)],
            done + [FailureRecord(0, 1, UnexpectedFault, false)])
  }

  ghost predicate StepIsPossible(cfg: Settings, i: nat)
    requires ValidSettings(cfg) && i < 13
  {
    Next(cfg, StateAt(cfg, i), ActionAt(cfg, i), StateAt(cfg, i + 1))
  }

  // ---------- what the steps do to a scene ----------

  lemma SceneLocks(row: Row, pc: Pc, calls: nat, edits: seq<Edit>, ledger: seq<Entry>)
    requires pc.Queued? || pc.HasResult? || pc.Failing?
    ensures AfterLock(Scene(row, UNLOCKED, pc, calls, edits, [], ledger), 0)
         == Scene(row, LOCKED_BY_RUN, if pc.Queued? then Claiming(row) else if pc.HasResult? then Finalising(pc.result, row)
                                      else Recording(pc.error, row), calls, edits, [], ledger)
  {
  }

  lemma SceneCommits(row: Row, pc: Pc, pc': Pc, row': Row, calls: nat, edits: seq<Edit>, ledger: seq<Entry>,
                     letters: seq<DeadLetter>, entries: seq<Entry>)
    ensures Commit(Scene(row, LOCKED_BY_RUN, pc, calls, edits, [], ledger), 0, pc', row', letters, entries)
         == Scene(row', UNLOCKED, pc', calls, edits, letters, ledger + entries)
  {
    assert LOCKED_BY_RUN - {1} == UNLOCKED;
    assert [] + letters == letters;
  }

  lemma SceneIsEdited(row: Row, calls: nat, ledger: seq<Entry>)
    ensures var edit, scene := Edit(1, SetStatus(Pending), row, true), Scene(row, UNLOCKED, Refreshing, calls, [], [], ledger);
            var locked := Scene(row, LOCKED_BY_EDIT, Refreshing, calls, [edit], [], ledger);
            && AfterOpen(scene, 1, SetStatus(Pending)) == locked
            && AfterEdit(locked, 0, true)
               == Scene(row.(status := Pending), UNLOCKED, Refreshing, calls, [edit.(open := false)], [], ledger)
  {
    assert LOCKED_BY_EDIT - {1} == UNLOCKED;
  }

  // ---------- the steps of the run ----------

  lemma IsDispatched(cfg: Settings)
    requires ValidSettings(cfg)
    ensures StepIsPossible(cfg, 0) && StepIsPossible(cfg, 1)
  {
  }

  lemma IsClaimed(cfg: Settings)
    requires ValidSettings(cfg)
    ensures StepIsPossible(cfg, 2) && StepIsPossible(cfg, 3)
  {
    SceneLocks(NEW_TICKET, Queued, 0, [], []);
    SceneCommits(NEW_TICKET, Claiming(NEW_TICKET), Classifying, Processing(), 0, [], [], [], []);
  }

  lemma IsClassified(cfg: Settings)
    requires ValidSettings(cfg)
    ensures StepIsPossible(cfg, 4)
  {
    LateAnswerIsCounted(cfg);
  }

  lemma IsCompleted(cfg: Settings)
    requires ValidSettings(cfg)
    ensures StepIsPossible(cfg, 5) && StepIsPossible(cfg, 6)
  {
    var m, result := 2 * cfg.maxAttempts, LateResult(cfg);
    SceneLocks(Processing(), HasResult(result), m, [], []);
    SceneCommits(Processing(), Finalising(result, Processing()), Refreshing, Completed(cfg), m, [], [], [], CompletionOnly(cfg));
  }

  lemma IsReopened(cfg: Settings)
    requires ValidSettings(cfg)
    ensures StepIsPossible(cfg, 7) && StepIsPossible(cfg, 8)
  {
    SceneIsEdited(Completed(cfg), 2 * cfg.maxAttempts, CompletionOnly(cfg));
  }

  lemma IsNotReadBack(cfg: Settings)
    requires ValidSettings(cfg)
    ensures StepIsPossible(cfg, 9)
  {
  }

  lemma IsLockedForRecord(cfg: Settings)
    requires ValidSettings(cfg)
    ensures StepIsPossible(cfg, 10)
  {
    SceneLocks(Reopened(cfg), Failing(UnexpectedFault), 2 * cfg.maxAttempts, Reopening(cfg, false), CompletionOnly(cfg));
  }

  lemma IsFailed(cfg: Settings)
    requires ValidSettings(cfg)
    ensures StepIsPossible(cfg, 11)
  {
  }

  lemma IsRecorded(cfg: Settings)
    requires ValidSettings(cfg)
    ensures StepIsPossible(cfg, 12)
  {
    var m := 2 * cfg.maxAttempts;
    LateAnswerIsCounted(cfg);
    SceneCommits(Reopened(cfg), Inserting(UnexpectedFault, Failed(cfg), false), Recorded(UnexpectedFault), Failed(cfg), m,
                 Reopening(cfg, false), CompletionOnly(cfg), [DeadLetter(1, Celery(0), m)],
                 [FailureRecord(0, 1, UnexpectedFault, false)]);
  }

  function Trace(cfg: Settings): seq<State>
    requires ValidSettings(cfg)
  {
    seq(14, i requires 0 <= i < 14 => StateAt(cfg, i))
  }

  function Actions(cfg: Settings): seq<Action>
    requires ValidSettings(cfg)
  {
    seq(13, i requires 0 <= i < 13 => ActionAt(cfg, i))
  }

  lemma RunIsPossible(cfg: Settings)
    requires ValidSettings(cfg)
    ensures Behaviour(cfg, Trace(cfg), Actions(cfg))
  {
    IsDispatched(cfg);
    IsClaimed(cfg);
    IsClassified(cfg);
    IsCompleted(cfg);
    IsReopened(cfg);
    IsNotReadBack(cfg);
    IsLockedForRecord(cfg);
    IsFailed(cfg);
    IsRecorded(cfg);
    hide Next, ActionAt;
    assert Trace(cfg)[0] == INIT;
    forall i | 0 <= i < 13
      ensures StepIsPossible(cfg, i)
    {
    }
  }

  /**
   Under all settings some run of the system, with one delivery of one task, ends with a retry count of
   2 * maxAttempts: the bound without status edits does not hold with them, and the other is reached.
   */
  lemma OneRunCountsTwice(cfg: Settings)
    requires ValidSettings(cfg)
    ensures Behaviour(cfg, Trace(cfg), Actions(cfg))
    ensures var s := Trace(cfg)[13];
            && Sum(s.runs, RunOf(1)) == 1 && 1 in s.db.rows
            && s.db.rows[1].retryCount == 2 * cfg.maxAttempts > (2 * cfg.maxAttempts - 1) * Sum(s.runs, RunOf(1))
  {
    RunIsPossible(cfg);
    LateAnswerIsCounted(cfg);
    hide Behaviour;
  }
}
