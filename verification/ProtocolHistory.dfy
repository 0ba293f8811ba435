/** What the committed rows owe to the history of commits: retry counts, results, letters, routing. */
module ProtocolHistory {
  import opened Domain
  import opened Protocol
  import opened ProtocolSafety

  /** The retry increments committed to a ticket. */
  ghost function RetrySum(ledger: seq<Entry>, t: TicketId): nat {
    if ledger == [] then 0
    else
      var last := ledger[|ledger| - 1];
      RetrySum(ledger[..|ledger| - 1], t) + if last.ticket == t then Increment(last) else 0
  }

  /** How often a ticket was completed. */
  ghost function Completions(ledger: seq<Entry>, t: TicketId): nat {
    if ledger == [] then 0
    else
      var last := ledger[|ledger| - 1];
      Completions(ledger[..|ledger| - 1], t) + if last.Completion? && last.ticket == t then 1 else 0
  }

  /** The latest completion of a ticket. */
  ghost function LastCompletion(ledger: seq<Entry>, t: TicketId): (e: Option<Entry>)
    ensures e.Some? ==> e.value.Completion? && e.value.ticket == t && e.value in ledger
    ensures e.Some? <==> 1 <= Completions(ledger, t)
  {
    if ledger == [] then None
    else
      var last := ledger[|ledger| - 1];
      if last.Completion? && last.ticket == t then Some(last) else LastCompletion(ledger[..|ledger| - 1], t)
  }

  lemma AppendEntry(ledger: seq<Entry>, e: Entry, t: TicketId)
    ensures RetrySum(ledger + [e], t) == RetrySum(ledger, t) + if e.ticket == t then Increment(e) else 0
    ensures Completions(ledger + [e], t) == Completions(ledger, t) + if e.Completion? && e.ticket == t then 1 else 0
    ensures LastCompletion(ledger + [e], t) == if e.Completion? && e.ticket == t then Some(e) else LastCompletion(ledger, t)
  {
    assert (ledger + [e])[..|ledger|] == ledger;
  }

  lemma {:induction false} NoEntries(ledger: seq<Entry>, t: TicketId)
    requires forall i :: 0 <= i < |ledger| ==> ledger[i].ticket != t
    ensures RetrySum(ledger, t) == 0 && Completions(ledger, t) == 0 && LastCompletion(ledger, t) == None
  {
    if ledger == [] {
    } else {
      NoEntries(ledger[..|ledger| - 1], t);
    }
  }

  ghost predicate HasLetterFor(dead: seq<DeadLetter>, t: TicketId) {
    exists i :: 0 <= i < |dead| && dead[i].ticket == t
  }

  /** The classification columns are all null before the first completion, and then all from the given one. */
  ghost predicate ClassifiedBy(row: Row, e: Option<Entry>) {
    match e
    case None => Unclassified(row)
    case Some(c) => c.Completion? && CarriesClassification(row, c.result.classification)
  }

  /** Model, tokens, cost and time are unset before the first completion, and then all from the given one. */
  ghost predicate MeasuredBy(row: Row, e: Option<Entry>) {
    match e
    case None => WithoutMetadata(row)
    case Some(c) => c.Completion? && CarriesMetadata(row, c.result, c.ms)
  }

  /** What a committed row owes to the history. */
  ghost predicate RowHistory(row: Row, t: TicketId, s: State) {
    && row.retryCount == RetrySum(s.ledger, t)
    && Routed(row)
    && MeasuredBy(row, LastCompletion(s.ledger, t))
    && (t !in s.corrected ==> ClassifiedBy(row, LastCompletion(s.ledger, t)))
    && (t !in s.statusEdited ==>
          && Completions(s.ledger, t) == (if row.status == Complete then 1 else 0)
          && (row.status == Failed ==> HasLetterFor(s.db.dead, t)))
  }

  ghost predicate History(s: State) {
    && (forall t {:trigger s.db.rows[t]} :: t in s.db.rows ==> RowHistory(s.db.rows[t], t, s))
    && (forall i :: 0 <= i < |s.ledger| ==> s.ledger[i].ticket in s.db.rows)
  }

  lemma CreateKeepsHistory(s: State, t: TicketId, title: string, description: string, createdAt: nat, customer: Option<UserId>)
    requires History(s) && t !in s.db.rows
    ensures History(AfterCreate(s, t, NewRow(title, description, createdAt, customer)))
  {
    NoEntries(s.ledger, t);
    var s' := AfterCreate(s, t, NewRow(title, description, createdAt, customer));
    forall u | u in s'.db.rows
      ensures RowHistory(s'.db.rows[u], u, s')
    {
      if u != t { assert RowHistory(s.db.rows[u], u, s); }
    }
  }

  /** A commit that appends one entry and perhaps a letter, given what it does to its own row. */
  lemma CommitKeepsHistory(s: State, r: RunId, pc: Pc, row: Row, letters: seq<DeadLetter>, e: Entry)
    requires History(s) && r < |s.runs| && s.runs[r].ticket in s.db.rows
    requires e.ticket == s.runs[r].ticket && Routed(row)
    requires row.retryCount == s.db.rows[e.ticket].retryCount + Increment(e)
    requires s.db.rows[e.ticket].status != Complete
    requires e.Completion? <==> row.status == Complete
    requires e.Completion? ==> MeasuredBy(row, Some(e)) && ClassifiedBy(row, Some(e))
    requires !e.Completion? ==> row == s.db.rows[e.ticket].(status := row.status, retryCount := row.retryCount)
    requires row.status == Failed ==> HasLetterFor(s.db.dead + letters, e.ticket)
    ensures History(Commit(s, r, pc, row, letters, [e]))
  {
    var t, s' := e.ticket, Commit(s, r, pc, row, letters, [e]);
    forall u | u in s'.db.rows
      ensures RowHistory(s'.db.rows[u], u, s')
    {
      assert RowHistory(s.db.rows[u], u, s);
      AppendEntry(s.ledger, e, u);
      if u != t {
        OtherRowKeepsHistory(s, s', u);
      }
    }
  }

  lemma OtherRowKeepsHistory(s: State, s': State, u: TicketId)
    requires u in s.db.rows && u in s'.db.rows && s'.db.rows[u] == s.db.rows[u]
    requires RowHistory(s.db.rows[u], u, s)
    requires s.ledger <= s'.ledger && s.db.dead <= s'.db.dead
    requires s.statusEdited <= s'.statusEdited && s.corrected <= s'.corrected
    requires RetrySum(s'.ledger, u) == RetrySum(s.ledger, u) && Completions(s'.ledger, u) == Completions(s.ledger, u)
    requires LastCompletion(s'.ledger, u) == LastCompletion(s.ledger, u)
    ensures RowHistory(s'.db.rows[u], u, s')
  {
  }

  lemma ClaimKeepsHistory(cfg: Settings, s: State, r: RunId)
    requires LockDiscipline(cfg, s) && History(s) && r < |s.runs| && s.runs[r].pc.Claiming?
    ensures History(AfterClaim(s, r))
  {
    var t, s' := s.runs[r].ticket, AfterClaim(s, r);
    assert s.ledger + [] == s.ledger && s.db.dead + [] == s.db.dead;
    forall u | u in s'.db.rows
      ensures RowHistory(s'.db.rows[u], u, s')
    {
      assert RowHistory(s.db.rows[u], u, s);
    }
  }

  lemma FinalKeepsHistory(cfg: Settings, s: State, r: RunId, ms: nat)
    requires LockDiscipline(cfg, s) && History(s) && r < |s.runs| && s.runs[r].pc.Finalising?
    ensures History(AfterFinal(s, r, ms))
  {
    var pc, t := s.runs[r].pc, s.runs[r].ticket;
    if pc.mine.status != Complete {
      CommitKeepsHistory(s, r, Refreshing, CompletedRow(pc.mine, pc.result, ms), [], Completion(r, t, pc.result, ms));
    }
  }

  lemma RecordKeepsHistory(cfg: Settings, s: State, r: RunId)
    requires LockDiscipline(cfg, s) && History(s) && r < |s.runs| && s.runs[r].pc.Recording?
    ensures History(AfterRecord(cfg, s, r))
  {
    var run := s.runs[r];
    var error, mine := run.pc.error, run.pc.mine;
    assert RowHistory(s.db.rows[run.ticket], run.ticket, s);
    if mine.status != Complete && WillRetry(cfg, run.task, run.retries, error) {
      CommitKeepsHistory(s, r, Recorded(error), FailedRow(mine, RetryIncrement(error), true), [],
                         FailureRecord(r, run.ticket, error, true));
    }
  }

  lemma InsertKeepsHistory(cfg: Settings, s: State, r: RunId)
    requires LockDiscipline(cfg, s) && Letters(s.db.dead, s.tasks, s.runs) && History(s)
    requires r < |s.runs| && s.runs[r].pc.Inserting?
    ensures History(AfterInsert(s, r))
  {
    var run := s.runs[r];
    var t := run.ticket;
    assert RowHistory(s.db.rows[t], t, s);
    var letter := DeadLetter(t, run.task, Max(run.retries, run.pc.mine.retryCount));
    var letters := if run.pc.found then [] else [letter];
    if run.pc.found {
      var i :| 0 <= i < |s.db.dead| && s.db.dead[i].task == run.task;
      assert (s.db.dead + letters)[i].ticket == t;
    } else {
      assert (s.db.dead + letters)[|s.db.dead|].ticket == t;
    }
    CommitKeepsHistory(s, r, Recorded(run.pc.error), run.pc.mine, letters, FailureRecord(r, t, run.pc.error, false));
  }

  lemma EditKeepsHistory(cfg: Settings, s: State, e: EditId, commit: bool)
    requires LockDiscipline(cfg, s) && History(s) && e < |s.edits| && s.edits[e].open
    ensures History(AfterEdit(s, e, commit))
  {
  }

  /** The parts of the state that History speaks of. */
  ghost predicate SameHistory(s: State, s': State) {
    && s'.db.rows == s.db.rows && s'.db.dead == s.db.dead && s'.ledger == s.ledger
    && s'.statusEdited == s.statusEdited && s'.corrected == s.corrected
  }

  lemma SameHistoryKeepsIt(s: State, s': State)
    requires History(s) && SameHistory(s, s')
    ensures History(s')
  {
  }

  /** The steps that can touch rows, letters or the ledger: creation, the committing steps and edits. */
  predicate TouchesRows(a: Action) {
    || a.CreateTicket? || a.CommitClaim? || a.CommitFinal? || a.Record? || a.Insert?
    || a.CommitEdit? || a.AbortEdit?
  }

  lemma OtherStepsAreSilent(cfg: Settings, s: State, a: Action)
    requires ValidSettings(cfg) && Enabled(cfg, s, a) && !TouchesRows(a)
    ensures SameHistory(s, Apply(cfg, s, a))
  {
  }

  lemma WorkerCommitKeepsHistory(cfg: Settings, s: State, a: Action)
    requires ValidSettings(cfg) && Enabled(cfg, s, a)
    requires a.CommitClaim? || a.CommitFinal? || a.Record? || a.Insert?
    requires LockDiscipline(cfg, s) && Letters(s.db.dead, s.tasks, s.runs) && History(s)
    ensures History(Apply(cfg, s, a))
  {
    match a
    case CommitClaim(r) => ClaimKeepsHistory(cfg, s, r);
    case CommitFinal(r, ms) => FinalKeepsHistory(cfg, s, r, ms);
    case Record(r) => RecordKeepsHistory(cfg, s, r);
    case Insert(r) => InsertKeepsHistory(cfg, s, r);
  }

  /**
   Every step keeps the history of every row: its retry count is the sum of the committed
   increments, it is routed, its columns are all unset or all from its latest completion, up to
   corrections; and unless an agent set its status it was completed exactly once if it is
   complete, and has a dead letter if it failed.
   */
  lemma HistoryStep(cfg: Settings, s: State, a: Action)
    requires ValidSettings(cfg) && Enabled(cfg, s, a)
    requires LockDiscipline(cfg, s) && Letters(s.db.dead, s.tasks, s.runs) && History(s)
    ensures History(Apply(cfg, s, a))
  {
    hide History, LockDiscipline, Letters;
    if !TouchesRows(a) {
      OtherStepsAreSilent(cfg, s, a);
      SameHistoryKeepsIt(s, Apply(cfg, s, a));
    } else if a.CreateTicket? {
      CreateKeepsHistory(s, a.t, a.title, a.description, a.createdAt, a.customer);
    } else if EditAction(a) {
      EditKeepsHistory(cfg, s, a.e, a.CommitEdit?);
    } else {
      WorkerCommitKeepsHistory(cfg, s, a);
    }
  }
}
