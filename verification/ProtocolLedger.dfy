/** Which runs committed which increments: the bounds on a ticket's retry count. */
module ProtocolLedger {
  import opened Domain
  import opened Protocol
  import opened ProtocolSafety
  import opened ProtocolHistory
  import opened ProtocolBudgets

  // ---------- every entry belongs to a run ----------

  /** The run can no longer record a failure. */
  predicate Settled(pc: Pc) { Finished(pc) || pc.Recorded? }

  /** The run can no longer complete its ticket. */
  predicate PastResult(pc: Pc) { pc.Refreshing? || RecordingFailure(pc) || Settled(pc) }

  /** An exhausted engine reports the calls that it made. */
  ghost predicate CountsCalls(e: TaskError, calls: nat) {
    e.FromService? ==> !e.error.RetriesExhausted? && (e.error.AllModelsFailed? ==> 1 <= e.error.attempts == calls)
  }

  /** The run of an entry is past the commit of that entry; a failure after a completion counts once. */
  ghost predicate Owned(runs: seq<Run>, e: Entry) {
    && e.run < |runs| && runs[e.run].ticket == e.ticket
    && var pc := runs[e.run].pc;
       && PastResult(pc)
       && (e.FailureRecord? ==> Settled(pc) && CountsCalls(e.error, runs[e.run].calls))
       && (e.Completion? ==> e.result.attempts == Max(1, runs[e.run].calls))
       && (e.Completion? && ErrorOf(pc).Some? ==> RetryIncrement(ErrorOf(pc).value) == 1)
  }

  /**
   A run that commits twice completed its ticket, saw an agent set the status, and then recorded
   the failure to read the ticket back.
   */
  ghost predicate MayFollow(first: Entry, second: Entry, statusEdited: set<TicketId>) {
    first.run == second.run ==>
      first.Completion? && second.FailureRecord? && Increment(second) == 1 && second.ticket in statusEdited
  }

  ghost predicate RunEntries(s: State) {
    && (forall i {:trigger s.ledger[i]} :: 0 <= i < |s.ledger| ==> Owned(s.runs, s.ledger[i]))
    && (forall i, j :: 0 <= i < j < |s.ledger| ==> MayFollow(s.ledger[i], s.ledger[j], s.statusEdited))
  }

  lemma StepKeepsOwned(cfg: Settings, s: State, a: Action, e: Entry)
    requires ValidSettings(cfg) && Enabled(cfg, s, a) && WorkerAction(a) && Owned(s.runs, e)
    ensures Owned(Apply(cfg, s, a).runs, e)
  {
    WorkerStepShape(cfg, s, a);
    if e.run == ActingRun(a) {
      if ClassifyingStep(a) { ClassifyingKeepsOwned(cfg, s, a, e); } else { RecordingKeepsOwned(cfg, s, a, e); }
    }
  }

  lemma ClassifyingKeepsOwned(cfg: Settings, s: State, a: Action, e: Entry)
    requires ValidSettings(cfg) && Enabled(cfg, s, a) && ClassifyingStep(a)
    requires Owned(s.runs, e) && e.run == ActingRun(a)
    ensures Owned(Apply(cfg, s, a).runs, e)
  {
  }

  lemma RecordingKeepsOwned(cfg: Settings, s: State, a: Action, e: Entry)
    requires ValidSettings(cfg) && Enabled(cfg, s, a) && WorkerAction(a) && !ClassifyingStep(a)
    requires Owned(s.runs, e) && e.run == ActingRun(a)
    ensures Owned(Apply(cfg, s, a).runs, e)
  {
  }

  lemma {:induction false} CompletionIsCounted(ledger: seq<Entry>, i: nat)
    requires i < |ledger| && ledger[i].Completion?
    ensures 1 <= Completions(ledger, ledger[i].ticket)
  {
    if i == |ledger| - 1 {
    } else {
      CompletionIsCounted(ledger[..|ledger| - 1], i);
    }
  }

  /** The step commits this entry. */
  ghost predicate Commits(s: State, s': State, r: RunId) {
    && |s'.ledger| == |s.ledger| + 1 && s'.ledger[..|s.ledger|] == s.ledger
    && s'.ledger[|s.ledger|].run == r && Owned(s'.runs, s'.ledger[|s.ledger|])
    && forall i :: 0 <= i < |s.ledger| ==> MayFollow(s.ledger[i], s'.ledger[|s.ledger|], s.statusEdited)
  }

  lemma FinalCommits(cfg: Settings, s: State, r: RunId, ms: nat)
    requires LockDiscipline(cfg, s) && Budgets(cfg, s) && RunEntries(s) && r < |s.runs| && s.runs[r].pc.Finalising?
    ensures AfterFinal(s, r, ms).ledger == s.ledger || Commits(s, AfterFinal(s, r, ms), r)
  {
    assert WithinBudgets(cfg, s.runs[r]);
    forall i | 0 <= i < |s.ledger|
      ensures s.ledger[i].run != r
    {
      assert Owned(s.runs, s.ledger[i]);
    }
  }

  /** A run that is about to record a failure can only have completed its ticket, and an agent set the status since. */
  lemma FailureMayFollow(cfg: Settings, s: State, r: RunId, i: nat)
    requires LockDiscipline(cfg, s) && History(s) && RunEntries(s)
    requires r < |s.runs| && (s.runs[r].pc.Recording? || s.runs[r].pc.Inserting?)
    requires s.db.rows[s.runs[r].ticket].status != Complete
    requires i < |s.ledger| && s.ledger[i].run == r
    ensures s.ledger[i].Completion? && RetryIncrement(s.runs[r].pc.error) == 1 && s.runs[r].ticket in s.statusEdited
  {
    assert Owned(s.runs, s.ledger[i]);
    CompletionIsCounted(s.ledger, i);
    assert RowHistory(s.db.rows[s.runs[r].ticket], s.runs[r].ticket, s);
  }

  lemma RecordCommits(cfg: Settings, s: State, r: RunId)
    requires LockDiscipline(cfg, s) && History(s) && Budgets(cfg, s) && RunEntries(s)
    requires r < |s.runs| && s.runs[r].pc.Recording?
    ensures var s' := AfterRecord(cfg, s, r); s'.ledger == s.ledger || Commits(s, s', r)
  {
    assert WithinBudgets(cfg, s.runs[r]);
    assert Snapshot(cfg, s, s.runs[r]);
    if s.runs[r].pc.mine.status != Complete {
      forall i | 0 <= i < |s.ledger| && s.ledger[i].run == r
        ensures s.ledger[i].Completion? && RetryIncrement(s.runs[r].pc.error) == 1 && s.runs[r].ticket in s.statusEdited
      {
        FailureMayFollow(cfg, s, r, i);
      }
    }
  }

  lemma InsertCommits(cfg: Settings, s: State, r: RunId)
    requires LockDiscipline(cfg, s) && History(s) && Budgets(cfg, s) && RunEntries(s)
    requires r < |s.runs| && s.runs[r].pc.Inserting?
    ensures Commits(s, AfterInsert(s, r), r)
  {
    assert WithinBudgets(cfg, s.runs[r]);
    assert Snapshot(cfg, s, s.runs[r]);
    forall i | 0 <= i < |s.ledger| && s.ledger[i].run == r
      ensures s.ledger[i].Completion? && RetryIncrement(s.runs[r].pc.error) == 1 && s.runs[r].ticket in s.statusEdited
    {
      FailureMayFollow(cfg, s, r, i);
    }
  }

  lemma WorkerCommits(cfg: Settings, s: State, a: Action)
    requires ValidSettings(cfg) && Enabled(cfg, s, a) && WorkerAction(a)
    requires LockDiscipline(cfg, s) && History(s) && Budgets(cfg, s) && RunEntries(s)
    ensures var s' := Apply(cfg, s, a); s'.ledger == s.ledger || Commits(s, s', ActingRun(a))
  {
    if a.CommitFinal? {
      FinalCommits(cfg, s, a.r, a.ms);
    } else if a.Record? {
      RecordCommits(cfg, s, a.r);
    } else if a.Insert? {
      InsertCommits(cfg, s, a.r);
    } else if TouchesRows(a) {
      assert s.ledger + [] == s.ledger;
    } else {
      OtherStepsAreSilent(cfg, s, a);
    }
  }

  /**
   Every step keeps: each entry belongs to a run of its ticket that is past the commit, no run
   commits twice, unless an agent set the status of the ticket that the run had completed.
   */
  lemma RunEntriesStep(cfg: Settings, s: State, a: Action)
    requires ValidSettings(cfg) && Enabled(cfg, s, a)
    requires LockDiscipline(cfg, s) && History(s) && Budgets(cfg, s) && RunEntries(s)
    ensures RunEntries(Apply(cfg, s, a))
  {
    hide Apply, Enabled, LockDiscipline, History, Budgets, Owned, MayFollow;
    var s' := Apply(cfg, s, a);
    if WorkerAction(a) {
      WorkerEntries(cfg, s, a);
    } else {
      EnvironmentEntries(cfg, s, a);
    }
  }

  lemma WorkerEntries(cfg: Settings, s: State, a: Action)
    requires ValidSettings(cfg) && Enabled(cfg, s, a) && WorkerAction(a)
    requires LockDiscipline(cfg, s) && History(s) && Budgets(cfg, s) && RunEntries(s)
    ensures RunEntries(Apply(cfg, s, a))
  {
    hide Apply, Enabled, LockDiscipline, History, Budgets, Owned, MayFollow;
    var s' := Apply(cfg, s, a);
    WorkerStepShape(cfg, s, a);
    WorkerCommits(cfg, s, a);
    forall i | 0 <= i < |s.ledger|
      ensures Owned(s'.runs, s.ledger[i])
    {
      StepKeepsOwned(cfg, s, a, s.ledger[i]);
    }
    if s'.ledger != s.ledger {
      assert forall i :: 0 <= i < |s.ledger| ==> s'.ledger[i] == s'.ledger[..|s.ledger|][i];
    }
  }

  lemma EnvironmentEntries(cfg: Settings, s: State, a: Action)
    requires ValidSettings(cfg) && Enabled(cfg, s, a) && !WorkerAction(a) && RunEntries(s)
    ensures RunEntries(Apply(cfg, s, a))
  {
    hide Apply, Enabled;
    EnvironmentStepShape(cfg, s, a);
  }

  // ---------- what one run adds ----------

  /** The increments that a run committed. */
  ghost function Spent(ledger: seq<Entry>, r: RunId): nat {
    if ledger == [] then 0
    else
      var last := ledger[|ledger| - 1];
      Spent(ledger[..|ledger| - 1], r) + if last.run == r then Increment(last) else 0
  }

  lemma {:induction false} SpentNothing(ledger: seq<Entry>, r: RunId)
    requires forall i :: 0 <= i < |ledger| ==> ledger[i].run != r
    ensures Spent(ledger, r) == 0
  {
    if ledger == [] {
    } else {
      SpentNothing(ledger[..|ledger| - 1], r);
    }
  }

  /** A run with at most one entry adds less than the attempts of both models. */
  lemma {:induction false} SpentOnce(ledger: seq<Entry>, r: RunId, attempts: nat)
    requires 1 <= attempts && forall i :: 0 <= i < |ledger| ==> Increment(ledger[i]) < attempts
    requires forall i, j :: 0 <= i < j < |ledger| ==> ledger[i].run != r || ledger[j].run != r
    ensures Spent(ledger, r) < attempts
  {
    if ledger == [] {
    } else {
      var n := |ledger| - 1;
      if ledger[n].run == r {
        SpentNothing(ledger[..n], r);
      } else {
        SpentOnce(ledger[..n], r, attempts);
      }
    }
  }

  /** Any run adds at most the attempts of both models. */
  lemma {:induction false} SpentAtMost(ledger: seq<Entry>, r: RunId, attempts: nat, statusEdited: set<TicketId>)
    requires 1 <= attempts && forall i :: 0 <= i < |ledger| ==> Increment(ledger[i]) < attempts
    requires forall i, j :: 0 <= i < j < |ledger| ==> MayFollow(ledger[i], ledger[j], statusEdited)
    ensures Spent(ledger, r) <= attempts
  {
    if ledger == [] {
    } else {
      var n := |ledger| - 1;
      if ledger[n].run != r {
        SpentAtMost(ledger[..n], r, attempts, statusEdited);
      } else if i :| 0 <= i < n && ledger[i].run == r {
        assert MayFollow(ledger[i], ledger[n], statusEdited);
        forall j, k | 0 <= j < k < n
          ensures ledger[j].run != r || ledger[k].run != r
        {
          assert MayFollow(ledger[j], ledger[k], statusEdited) && MayFollow(ledger[k], ledger[n], statusEdited);
        }
        SpentOnce(ledger[..n], r, attempts);
      } else {
        SpentNothing(ledger[..n], r);
      }
    }
  }

  // ---------- what the runs of a ticket add ----------

  ghost function SpentBy(ledger: seq<Entry>, runs: seq<Run>, t: TicketId): nat {
    if runs == [] then 0
    else
      var n := |runs| - 1;
      SpentBy(ledger, runs[..n], t) + if runs[n].ticket == t then Spent(ledger, n) else 0
  }

  lemma {:induction false} NothingSpent(runs: seq<Run>, t: TicketId)
    ensures SpentBy([], runs, t) == 0
  {
    if runs == [] {
    } else {
      NothingSpent(runs[..|runs| - 1], t);
    }
  }

  lemma {:induction false} EntrySpent(ledger: seq<Entry>, e: Entry, runs: seq<Run>, t: TicketId)
    ensures SpentBy(ledger + [e], runs, t)
         == SpentBy(ledger, runs, t) + if e.run < |runs| && runs[e.run].ticket == t then Increment(e) else 0
  {
    assert (ledger + [e])[..|ledger|] == ledger;
    if runs == [] {
    } else {
      EntrySpent(ledger, e, runs[..|runs| - 1], t);
    }
  }

  lemma {:induction false} SpentAddsUp(ledger: seq<Entry>, runs: seq<Run>, t: TicketId)
    requires forall i :: 0 <= i < |ledger| ==> ledger[i].run < |runs| && runs[ledger[i].run].ticket == ledger[i].ticket
    ensures RetrySum(ledger, t) == SpentBy(ledger, runs, t)
  {
    if ledger == [] {
      NothingSpent(runs, t);
    } else {
      var n := |ledger| - 1;
      SpentAddsUp(ledger[..n], runs, t);
      EntrySpent(ledger[..n], ledger[n], runs, t);
      assert ledger[..n] + [ledger[n]] == ledger;
    }
  }

  function RunOf(t: TicketId): Run -> nat {
    (run: Run) => if run.ticket == t then 1 else 0
  }

  /** The runs of the ticket that got as far as a result or a failure. */
  function ReportingRunOf(t: TicketId): Run -> nat {
    (run: Run) => if run.ticket == t && PastResult(run.pc) then 1 else 0
  }

  lemma {:induction false} SpentByScaled(ledger: seq<Entry>, runs: seq<Run>, t: TicketId, k: nat)
    requires forall r :: 0 <= r < |runs| && runs[r].ticket == t ==> Spent(ledger, r) <= if PastResult(runs[r].pc) then k else 0
    ensures SpentBy(ledger, runs, t) <= k * Sum(runs, ReportingRunOf(t))
  {
    if runs == [] {
    } else {
      var n := |runs| - 1;
      SpentByScaled(ledger, runs[..n], t, k);
      var f := ReportingRunOf(t);
      assert k * (Sum(runs[..n], f) + f(runs[n])) == k * Sum(runs[..n], f) + k * f(runs[n]);
    }
  }

  lemma RunStaysInBudget(cfg: Settings, s: State, r: RunId)
    requires ValidSettings(cfg) && Budgets(cfg, s) && RunEntries(s) && r < |s.runs|
    ensures !PastResult(s.runs[r].pc) ==> Spent(s.ledger, r) == 0
    ensures Spent(s.ledger, r) <= 2 * cfg.maxAttempts
    ensures s.runs[r].ticket !in s.statusEdited ==> Spent(s.ledger, r) < 2 * cfg.maxAttempts
  {
    SpentAtMost(s.ledger, r, 2 * cfg.maxAttempts, s.statusEdited);
    if !PastResult(s.runs[r].pc) {
      forall i | 0 <= i < |s.ledger|
        ensures s.ledger[i].run != r
      {
        assert Owned(s.runs, s.ledger[i]);
      }
      SpentNothing(s.ledger, r);
    } else if s.runs[r].ticket !in s.statusEdited {
      forall i, j | 0 <= i < j < |s.ledger|
        ensures s.ledger[i].run != r || s.ledger[j].run != r
      {
        assert MayFollow(s.ledger[i], s.ledger[j], s.statusEdited) && Owned(s.runs, s.ledger[j]);
      }
      SpentOnce(s.ledger, r, 2 * cfg.maxAttempts);
    }
  }

  /**
   A ticket's retry count is at most 2 * maxAttempts for each of its runs that got as far as a result
   or a failure, and one less for each unless an agent set its status.
   */
  lemma RetryCountBound(cfg: Settings, s: State, t: TicketId)
    requires ValidSettings(cfg) && History(s) && Budgets(cfg, s) && RunEntries(s)
    requires t in s.db.rows
    ensures s.db.rows[t].retryCount <= 2 * cfg.maxAttempts * Sum(s.runs, ReportingRunOf(t))
    ensures t !in s.statusEdited ==>
              s.db.rows[t].retryCount <= (2 * cfg.maxAttempts - 1) * Sum(s.runs, ReportingRunOf(t))
  {
    assert RowHistory(s.db.rows[t], t, s);
    forall i | 0 <= i < |s.ledger|
      ensures s.ledger[i].run < |s.runs| && s.runs[s.ledger[i].run].ticket == s.ledger[i].ticket
    {
      assert Owned(s.runs, s.ledger[i]);
    }
    SpentAddsUp(s.ledger, s.runs, t);
    var k := if t in s.statusEdited then 2 * cfg.maxAttempts else 2 * cfg.maxAttempts - 1;
    forall r | 0 <= r < |s.runs| && s.runs[r].ticket == t
      ensures Spent(s.ledger, r) <= if PastResult(s.runs[r].pc) then k else 0
    {
      RunStaysInBudget(cfg, s, r);
    }
    SpentByScaled(s.ledger, s.runs, t, k);
    ScaleBoundLeft(k, 2 * cfg.maxAttempts, Sum(s.runs, ReportingRunOf(t)));
  }

  lemma ScaleBoundLeft(m: nat, n: nat, k: nat)
    requires m <= n
    ensures m * k <= n * k
  {
  }
}
