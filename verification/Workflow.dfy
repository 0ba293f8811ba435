/**
 The services in the form of the source: sessions that lock, change and commit ticket objects
 in place. Every transaction is proved to be the transaction function that the protocol's
 commits are atomic executions of.
 */
module Workflow {
  import opened Domain
  import opened RetryEngine
  import opened Protocol
  import opened Access

  /** A loaded ticket, whose columns the services assign one by one. */
  class Ticket {
    const title: string
    const description: string
    const createdAt: nat
    const customer: Option<UserId>
    var agent: Option<UserId>
    var status: Status
    var urgency: Option<Urgency>
    var category: Option<Category>
    var queue: Option<string>
    var confidence: Option<real>
    var model: Option<string>
    var tokens: nat
    var processingMs: Option<nat>
    var cost: Option<real>
    var retryCount: nat

    constructor (row: Row)
      ensures Columns() == row
    {
      title, description, createdAt, customer := row.title, row.description, row.createdAt, row.customer;
      agent, status, urgency, category := row.agent, row.status, row.urgency, row.category;
      queue, confidence, model, tokens := row.queue, row.confidence, row.model, row.tokens;
      processingMs, cost, retryCount := row.processingMs, row.cost, row.retryCount;
    }

    function Columns(): Row
      reads this
    {
      Row(title, description, createdAt, customer, agent, status, urgency, category, queue,
          confidence, model, tokens, processingMs, cost, retryCount)
    }
  }

  class Database {
    var rows: map<TicketId, Row>
    var locks: set<TicketId>
    var dead: seq<DeadLetter>

    constructor ()
      ensures rows == map[] && locks == {} && dead == []
    {
      rows, locks, dead := map[], {}, [];
    }

    /**
     Other sessions run between two transactions of this one. They may change anything but
     never delete a ticket, and every transaction of theirs on the given ticket is over when
     this session's next lock on it is granted.
     */
    method OtherSessions(t: TicketId)
      modifies this
      ensures t !in locks
      ensures old(rows).Keys <= rows.Keys
    {
      locks := locks - {t};
    }
  }

  class Session {
    const db: Database
    var held: Option<TicketId>
    var ticket: Ticket
    var added: seq<DeadLetter>

    /** No transaction is open. */
    predicate Idle()
      reads this
    {
      held.None? && added == []
    }

    constructor (db: Database)
      ensures this.db == db && Idle()
    {
      this.db := db;
      held, added := None, [];
      ticket := new Ticket(NewRow("", "", 0, None));
    }

    /** Lock the row and load it; the lock is free when it is granted. */
    method GetForUpdate(t: TicketId) returns (found: bool)
      requires Idle() && t !in db.locks
      modifies this, db
      ensures found <==> t in db.rows
      ensures db.rows == old(db.rows) && db.dead == old(db.dead) && added == []
      ensures !found ==> Idle() && db.locks == old(db.locks)
      ensures found ==> && held == Some(t) && db.locks == old(db.locks) + {t}
                        && fresh(ticket) && ticket.Columns() == db.rows[t]
    {
      found := t in db.rows;
      if found {
        ticket := new Ticket(db.rows[t]);
        held := Some(t);
        db.locks := db.locks + {t};
      }
    }

    method Commit()
      requires held.Some?
      modifies this, db
      ensures Idle()
      ensures db.rows == old(db.rows[held.value := ticket.Columns()])
      ensures db.dead == old(db.dead + added)
      ensures db.locks == old(db.locks - {held.value})
    {
      db.rows := db.rows[held.value := ticket.Columns()];
      db.dead := db.dead + added;
      db.locks := db.locks - {held.value};
      held, added := None, [];
    }

    method Rollback()
      modifies this, db
      ensures Idle()
      ensures db.rows == old(db.rows) && db.dead == old(db.dead)
      ensures db.locks == old(if held.Some? then db.locks - {held.value} else db.locks)
    {
      if held.Some? {
        db.locks := db.locks - {held.value};
      }
      held, added := None, [];
    }
  }

  datatype Claim = Missing | AlreadyComplete | Claimed(title: string, description: string)

  datatype Processed = Returned(row: Row) | Aborted(error: TaskError)

  /** Where the database, the connection or the classifier fails while a ticket is processed. */
  datatype FaultPoint =
    | NoFault
    | InClaim(error: TaskError)
    | WhileClassifying(error: TaskError)
    | InFinalise(error: TaskError)
    | InRefresh(error: TaskError)

  class ClassificationService {
    const session: Session
    const cfg: Settings

    constructor (session: Session, cfg: Settings)
      ensures this.session == session && this.cfg == cfg
    {
      this.session, this.cfg := session, cfg;
    }

    method ClaimTicket(t: TicketId) returns (claim: Claim)
      requires session.Idle() && t !in session.db.locks
      modifies session, session.db
      ensures session.Idle() && session.db.locks == old(session.db.locks) && session.db.dead == old(session.db.dead)
      ensures t !in old(session.db.rows) ==> claim == Missing && session.db.rows == old(session.db.rows)
      ensures t in old(session.db.rows) ==>
                var row := old(session.db.rows)[t];
                && session.db.rows == old(session.db.rows)[t := ClaimTransaction(row)]
                && claim == if row.status == Complete then AlreadyComplete else Claimed(row.title, row.description)
    {
      var found := session.GetForUpdate(t);
      if !found {
        return Missing;
      }
      if session.ticket.status == Complete {
        session.Rollback();
        return AlreadyComplete;
      }
      session.ticket.status := Processing;
      claim := Claimed(session.ticket.title, session.ticket.description);
      session.Commit();
    }

    /** The second transaction: lock again, check again, write the result, commit. */
    method Finalise(t: TicketId, result: Result, ms: nat) returns (processed: Processed, committed: bool)
      requires session.Idle() && t !in session.db.locks
      modifies session, session.db
      ensures session.Idle() && session.db.locks == old(session.db.locks) && session.db.dead == old(session.db.dead)
      ensures t !in old(session.db.rows) ==> processed == Aborted(TicketNotFound) && session.db.rows == old(session.db.rows)
      ensures t in old(session.db.rows) ==>
                && session.db.rows == old(session.db.rows)[t := FinaliseTransaction(old(session.db.rows)[t], result, ms)]
                && processed == Returned(session.db.rows[t])
                && session.db.rows[t].status == Complete
                && (committed <==> old(session.db.rows)[t].status != Complete)
    {
      var assignedQueue := AssignQueue(result.classification);
      var found := session.GetForUpdate(t);
      if !found {
        return Aborted(TicketNotFound), false;
      }
      var ticket := session.ticket;
      if ticket.status == Complete {
        session.Rollback();
        return Returned(ticket.Columns()), false;
      }
      ticket.urgency := Some(result.classification.urgency);
      ticket.category := Some(result.classification.category);
      ticket.queue := Some(assignedQueue);
      ticket.confidence := Some(result.classification.confidence);
      ticket.model := Some(result.model);
      ticket.tokens := result.totalTokens;
      ticket.processingMs := Some(ms);
      ticket.cost := Some(result.cost);
      ticket.retryCount := ticket.retryCount + result.attempts - 1;
      ticket.status := Complete;
      processed, committed := Returned(ticket.Columns()), true;
      session.Commit();
    }

    /**
     Claim, classify without a lock while others run, finalise, and read the completed ticket back; the
     fault, if any, strikes one of these. The ghost result is the row that the second transaction locked.
     */
    method Process(t: TicketId, script: seq<Outcome>, jitter: seq<real>, ms: nat, fault: FaultPoint)
      returns (processed: Processed, ghost locked: Option<Row>)
      requires ValidSettings(cfg) && 2 * cfg.maxAttempts <= |script| <= |jitter|
      requires session.Idle() && t !in session.db.locks
      modifies session, session.db
      ensures session.Idle() && t !in session.db.locks && (locked.Some? && !fault.InRefresh? ==> processed.Returned?)
      ensures fault.InClaim? ==>
                processed == Aborted(fault.error) && session.db.rows == old(session.db.rows) && session.db.dead == old(session.db.dead)
      ensures !fault.InClaim? && t !in old(session.db.rows) ==>
                && processed == Aborted(TicketNotFound)
                && session.db.rows == old(session.db.rows) && session.db.dead == old(session.db.dead)
      ensures !fault.InClaim? && t in old(session.db.rows) && old(session.db.rows)[t].status == Complete ==>
                && processed == Returned(old(session.db.rows)[t])
                && session.db.rows == old(session.db.rows) && session.db.dead == old(session.db.dead)
      ensures !fault.InClaim? && t in old(session.db.rows) && old(session.db.rows)[t].status != Complete ==>
                if fault.WhileClassifying? then processed == Aborted(fault.error)
                else match Scan(cfg, script)
                  case Failure(e) => processed == Aborted(FromService(e))
                  case Success(result) =>
                    if fault.InFinalise? then processed == Aborted(fault.error)
                    else
                      && locked.Some? && t in session.db.rows
                      && session.db.rows[t] == FinaliseTransaction(locked.value, result, ms)
                      && processed == if fault.InRefresh? && locked.value.status != Complete then Aborted(fault.error)
                                      else Returned(session.db.rows[t])
      ensures t in old(session.db.rows) ==> t in session.db.rows
      ensures processed.Returned? ==> t in session.db.rows && processed == Returned(session.db.rows[t]) && processed.row.status == Complete
      ensures processed.Aborted? && processed.error.FromService? ==>
                !RetryableService(processed.error.error) || (!fault.NoFault? && processed.error == fault.error)
    {
      locked := None;
      if fault.InClaim? {
        return Aborted(fault.error), locked;
      }
      var claim := ClaimTicket(t);
      match claim {
        case Missing =>
          return Aborted(TicketNotFound), locked;
        case AlreadyComplete =>
          return Returned(session.db.rows[t]), locked;
        case Claimed(_, _) =>
      }
      session.db.OtherSessions(t);
      if fault.WhileClassifying? {
        return Aborted(fault.error), locked;
      }
      EngineErrorsAreFinal(cfg, script);
      var classified, calls, sleeps := ClassifyTicket(cfg, script, jitter);
      match classified {
        case Failure(e) =>
          return Aborted(FromService(e)), locked;
        case Success(result) =>
          session.db.OtherSessions(t);
          if fault.InFinalise? {
            return Aborted(fault.error), locked;
          }
          locked := Some(session.db.rows[t]);
          var committed;
          processed, committed := Finalise(t, result, ms);
          if fault.InRefresh? && committed {
            return Aborted(fault.error), locked;
          }
      }
    }

    /** Count the failed attempts, set the status, and write a dead letter when no retry will follow. */
    method RecordFailure(t: TicketId, willRetry: bool, task: TaskId, retries: nat, error: TaskError)
      requires session.Idle() && t !in session.db.locks
      modifies session, session.db
      ensures session.Idle() && session.db.locks == old(session.db.locks)
      ensures t !in old(session.db.rows) ==>
                session.db.rows == old(session.db.rows) && session.db.dead == old(session.db.dead)
      ensures t in old(session.db.rows) ==>
                var row, increment := old(session.db.rows)[t], RetryIncrement(error);
                && session.db.rows == old(session.db.rows)[t := RecordTransaction(row, increment, willRetry)]
                && session.db.dead ==
                   LettersTransaction(old(session.db.dead), row, t, task, retries, increment, willRetry)
      ensures t in old(session.db.rows) && old(session.db.rows)[t].status != Complete ==>
                var row, row' := old(session.db.rows)[t], session.db.rows[t];
                && row'.status == (if willRetry then Pending else Failed)
                && row'.retryCount == row.retryCount + AttemptsLost(error)
                && (!willRetry && (forall i :: 0 <= i < |old(session.db.dead)| ==> old(session.db.dead)[i].task != task) ==>
                      session.db.dead == old(session.db.dead) + [DeadLetter(t, task, Max(retries, row'.retryCount))])
    {
      var found := session.GetForUpdate(t);
      if !found {
        session.Rollback();
        return;
      }
      var ticket := session.ticket;
      if ticket.status == Complete {
        session.Rollback();
        return;
      }
      ticket.retryCount := ticket.retryCount + RetryIncrement(error);
      ticket.status := if willRetry then Pending else Failed;
      if !willRetry {
        var existing := HasLetter(session.db.dead, task);
        if !existing {
          session.added := session.added + [DeadLetter(t, task, Max(retries, ticket.retryCount))];
        }
      }
      session.Commit();
    }
  }

  /** The attempts that a failure costs: those of an exhausted engine but the first, and one for any other error. */
  ghost function AttemptsLost(error: TaskError): nat {
    match error
    case FromService(RetriesExhausted(_, attempts, _)) => Max(0, attempts - 1)
    case FromService(AllModelsFailed(_, attempts, _)) => Max(0, attempts - 1)
    case _ => 1
  }

  // ---------- the Celery task ----------

  /** The waits before the retries double from ten seconds on, and from the sixth they are five minutes. */
  lemma CountdownsDouble(retries: nat)
    ensures Countdown(0) == 10 && Countdown(1) == 20 && Countdown(2) == 40 && Countdown(3) == 80 && Countdown(4) == 160
    ensures 5 <= retries ==> Countdown(retries) == 300
  {
    assert Pow2(5) == 32 by { assert Pow2(4) == 16; }
    if 5 <= retries { PowersGrow(5, retries); }
  }

  lemma {:induction false} PowersGrow(m: nat, n: nat)
    requires m <= n
    ensures Pow2(m) <= Pow2(n)
  {
    if m == n {
    } else {
      PowersGrow(m, n - 1);
    }
  }

  /** The fault, if any, is not an error of the engine put in its place. */
  ghost predicate ForeignFault(fault: FaultPoint) { fault.NoFault? || !fault.error.FromService? }

  /** The classification is reached, and both models fail for good. */
  ghost predicate Exhausting(cfg: Settings, script: seq<Outcome>, fault: FaultPoint)
    requires 2 * cfg.maxAttempts <= |script|
  {
    && !fault.InClaim? && !fault.WhileClassifying?
    && forall j :: 0 <= j < 2 * cfg.maxAttempts ==> Transient(script[j])
  }

  datatype TaskEnd = Succeeded | Retry(countdown: nat, cause: TaskError) | RaisedError(cause: TaskError)

  function Countdown(retries: nat): nat {
    var delay := 10 * Pow2(retries);
    if delay < 300 then delay else 300
  }

  /** Process the ticket in a session of its own. */
  method RunWorkflow(db: Database, cfg: Settings, t: TicketId, script: seq<Outcome>, jitter: seq<real>, ms: nat,
                     fault: FaultPoint) returns (processed: Processed)
    requires ValidSettings(cfg) && 2 * cfg.maxAttempts <= |script| <= |jitter|
    requires t !in db.locks
    modifies db
    ensures t in old(db.rows) ==> t in db.rows
    ensures processed.Returned? ==> t in old(db.rows) && t in db.rows && db.rows[t] == processed.row
                                    && processed.row.status == Complete
    ensures processed.Aborted? && fault.NoFault? && t in old(db.rows) ==>
              Scan(cfg, script).Failure? && processed.error == FromService(Scan(cfg, script).error)
    ensures t !in old(db.rows) ==> processed == Aborted(if fault.InClaim? then fault.error else TicketNotFound)
    ensures processed.Aborted? && ForeignFault(fault) ==>
              && AttemptsLost(processed.error) ==
                 (if t in old(db.rows) && Exhausting(cfg, script, fault) then 2 * cfg.maxAttempts - 1 else 1)
              && (TaskRetryable(processed.error) <==> Passing(processed.error))
  {
    ExhaustionIff(cfg, script);
    EngineErrorsAreFinal(cfg, script);
    var session := new Session(db);
    var service := new ClassificationService(session, cfg);
    ghost var locked;
    processed, locked := service.Process(t, script, jitter, ms, fault);
  }

  /**
   One delivery of the task. The failure state that is recorded is PENDING exactly when the
   task goes on to retry and FAILED, with a dead letter, exactly when it raises. A ticket that does
   not exist ends the task without a retry. The ghost result is the row that recording the failure locked.
   */
  method ClassifyTicketTask(db: Database, cfg: Settings, t: TicketId, task: TaskId, retries: nat,
                            script: seq<Outcome>, jitter: seq<real>, ms: nat,
                            fault: FaultPoint, recordingFails: bool)
    returns (end: TaskEnd, ghost recorded: Option<Row>)
    requires ValidSettings(cfg) && 2 * cfg.maxAttempts <= |script| <= |jitter|
    requires t !in db.locks && task.Celery?
    modifies db
    ensures t in old(db.rows) ==> t in db.rows
    ensures end.Succeeded? ==> t in old(db.rows) && t in db.rows && db.rows[t].status == Complete
    ensures t !in old(db.rows) && !fault.InClaim? ==> end == RaisedError(TicketNotFound)
    ensures !end.Succeeded? ==>
              && (end.Retry? <==> WillRetry(cfg, task, retries, end.cause))
              && (recordingFails ==> recorded.None?)
              && (recorded.None? && !recordingFails ==> t !in db.rows)
    ensures end.Retry? ==> end.countdown == Countdown(retries) && retries < cfg.taskMaxRetries
    ensures !end.Succeeded? && ForeignFault(fault) ==>
              (end.Retry? <==> retries < cfg.taskMaxRetries && Passing(end.cause))
    ensures recorded.Some? ==>
              && !end.Succeeded? && t in db.rows
              && db.rows[t] == RecordTransaction(recorded.value, RetryIncrement(end.cause), end.Retry?)
              && (recorded.value.status != Complete ==>
                    && (db.rows[t].status == Pending <==> end.Retry?)
                    && (db.rows[t].status == Failed <==> end.RaisedError?)
                    && (end.RaisedError? ==> HasLetter(db.dead, task)))
    ensures recorded.Some? && recorded.value.status != Complete && ForeignFault(fault) ==>
              db.rows[t].retryCount == recorded.value.retryCount +
                if t in old(db.rows) && Exhausting(cfg, script, fault) then 2 * cfg.maxAttempts - 1 else 1
  {
    recorded := None;
    var retryAvailable := retries < cfg.taskMaxRetries;
    var processed := RunWorkflow(db, cfg, t, script, jitter, ms, fault);
    if processed.Returned? {
      return Succeeded, recorded;
    }
    var error := processed.error;
    var willRetry := TaskRetryable(error) && retryAvailable;
    if !recordingFails {
      db.OtherSessions(t);
      recorded := if t in db.rows then Some(db.rows[t]) else None;
      ghost var dead := db.dead;
      var session := new Session(db);
      var service := new ClassificationService(session, cfg);
      service.RecordFailure(t, willRetry, task, retries, error);
      if recorded.Some? {
        AppendedLetterIsFound(dead, recorded.value, t, task, retries, RetryIncrement(error));
      }
    }
    if willRetry {
      return Retry(Countdown(retries), error), recorded;
    }
    return RaisedError(error), recorded;
  }

  /** A final failure leaves a letter for its task, whether it had one before or not. */
  lemma AppendedLetterIsFound(dead: seq<DeadLetter>, row: Row, t: TicketId, task: TaskId, retries: nat, increment: nat)
    ensures row.status != Complete ==>
              HasLetter(LettersTransaction(dead, row, t, task, retries, increment, false), task)
  {
    if row.status != Complete && !HasLetter(dead, task) {
      assert LettersTransaction(dead, row, t, task, retries, increment, false)[|dead|].task == task;
    }
  }

  // ---------- the ticket service ----------

  datatype Answer = NotFound | Forbidden | Updated(row: Row)

  /** What the intake does once the ticket is committed. */
  datatype Intake =
    | Background(published: bool)
    | InRequest(script: seq<Outcome>, jitter: seq<real>, ms: nat, fault: FaultPoint, recordingFails: bool)
    | Disabled

  datatype Created = Refused | Accepted(row: Row) | DispatchFailed | RecordingFailed

  class TicketService {
    const session: Session
    const caller: Caller

    constructor (session: Session, caller: Caller)
      ensures this.session == session && this.caller == caller
    {
      this.session, this.caller := session, caller;
    }

    /**
     The ticket id is the one that the database generates. A ticket classified within the request is
     decided when the request answers: complete, or failed with a dead letter under the ticket's own
     task id. A ticket that could not be published stays, pending.
     */
    method Create(t: TicketId, title: string, description: string, createdAt: nat, cfg: Settings, intake: Intake)
      returns (answer: Created)
      requires ValidSettings(cfg)
      requires intake.InRequest? ==> 2 * cfg.maxAttempts <= |intake.script| <= |intake.jitter|
      requires session.Idle() && t !in session.db.rows && t !in session.db.locks
      modifies session, session.db
      ensures session.Idle()
      ensures answer.Refused? <==> !MayCreate(caller)
      ensures answer.Refused? <==> caller.Some? && caller.value.role == SupportAgent
      ensures !MayCreate(caller) ==> session.db.rows == old(session.db.rows) && session.db.dead == old(session.db.dead)
      ensures MayCreate(caller) && !intake.InRequest? ==>
                var row := NewRow(title, description, createdAt, if caller.Some? then Some(caller.value.id) else None);
                && session.db.rows == old(session.db.rows)[t := row] && session.db.dead == old(session.db.dead)
                && answer == if intake == Background(false) then DispatchFailed else Accepted(row)
      ensures MayCreate(caller) && !intake.InRequest? ==>
                var row := session.db.rows[t];
                && row.title == title && row.description == description && row.createdAt == createdAt
                && row.customer == (if caller.Some? then Some(caller.value.id) else None) && row.agent.None?
                && row.status == Pending && Unclassified(row) && WithoutMetadata(row) && row.retryCount == 0
      ensures MayCreate(caller) && intake.InRequest? ==>
                && t in session.db.rows && !answer.DispatchFailed? && (answer.RecordingFailed? ==> intake.recordingFails)
                && (answer.Accepted? ==>
                      && answer.row == session.db.rows[t]
                      && (|| answer.row.status == Complete
                          || (answer.row.status == Failed && HasLetter(session.db.dead, Inline(t)))))
    {
      if caller.Some? && caller.value.role != Customer && caller.value.role != Admin {
        return Refused;
      }
      session.ticket := new Ticket(NewRow(title, description, createdAt,
                                          if caller.Some? then Some(caller.value.id) else None));
      session.held := Some(t);
      var row := session.ticket.Columns();
      session.Commit();
      match intake {
        case Disabled =>
          return Accepted(row);
        case Background(published) =>
          return if published then Accepted(row) else DispatchFailed;
        case InRequest(script, jitter, ms, fault, recordingFails) =>
          answer := ClassifyInRequest(t, cfg, script, jitter, ms, fault, recordingFails);
      }
    }

    /** Classify within the request; a failure is recorded as final, under the ticket's own task id. */
    method ClassifyInRequest(t: TicketId, cfg: Settings, script: seq<Outcome>, jitter: seq<real>, ms: nat,
                             fault: FaultPoint, recordingFails: bool) returns (answer: Created)
      requires ValidSettings(cfg) && 2 * cfg.maxAttempts <= |script| <= |jitter|
      requires session.Idle() && t in session.db.rows && t !in session.db.locks
      modifies session, session.db
      ensures session.Idle() && t in session.db.rows
      ensures answer.Accepted? || answer.RecordingFailed?
      ensures answer.RecordingFailed? ==> recordingFails
      ensures answer.Accepted? ==>
                && answer.row == session.db.rows[t]
                && (|| answer.row.status == Complete
                    || (answer.row.status == Failed && HasLetter(session.db.dead, Inline(t))))
    {
      session.db.OtherSessions(t);
      var service := new ClassificationService(session, cfg);
      ghost var locked;
      var processed;
      processed, locked := service.Process(t, script, jitter, ms, fault);
      if processed.Returned? {
        return Accepted(processed.row);
      }
      if recordingFails {
        return RecordingFailed;
      }
      session.db.OtherSessions(t);
      ghost var row, dead := session.db.rows[t], session.db.dead;
      service.RecordFailure(t, false, Inline(t), 0, processed.error);
      AppendedLetterIsFound(dead, row, t, Inline(t), 0, RetryIncrement(processed.error));
      return Accepted(session.db.rows[t]);
    }

    method UpdateStatus(t: TicketId, status: Status) returns (answer: Answer)
      requires session.Idle() && t !in session.db.locks
      modifies session, session.db
      ensures EditOutcome(old(session.db.rows), session.db.rows, t, MayEdit(caller), SetStatus(status), answer)
      ensures t in old(session.db.rows) ==> EditedByRole(caller, old(session.db.rows), session.db.rows, answer)
      ensures answer.Updated? ==>
                t in old(session.db.rows) && session.db.rows[t] == old(session.db.rows)[t].(status := status) == answer.row
      ensures session.Idle() && session.db.locks == old(session.db.locks) && session.db.dead == old(session.db.dead)
    {
      var found := session.GetForUpdate(t);
      if !found {
        return NotFound;
      }
      if !MayEdit(caller) {
        session.Rollback();
        return Forbidden;
      }
      session.ticket.status := status;
      answer := Updated(session.ticket.Columns());
      session.Commit();
    }

    method CorrectClassification(t: TicketId, correction: Classification) returns (answer: Answer)
      requires session.Idle() && t !in session.db.locks
      modifies session, session.db
      ensures EditOutcome(old(session.db.rows), session.db.rows, t, MayEdit(caller), Correct(correction), answer)
      ensures t in old(session.db.rows) ==> EditedByRole(caller, old(session.db.rows), session.db.rows, answer)
      ensures answer.Updated? ==>
                t in old(session.db.rows) && CarriesClassification(session.db.rows[t], correction) && session.db.rows[t] == answer.row
      ensures session.Idle() && session.db.locks == old(session.db.locks) && session.db.dead == old(session.db.dead)
    {
      var found := session.GetForUpdate(t);
      if !found {
        return NotFound;
      }
      if !MayEdit(caller) {
        session.Rollback();
        return Forbidden;
      }
      var ticket := session.ticket;
      ticket.urgency := Some(correction.urgency);
      ticket.category := Some(correction.category);
      ticket.confidence := Some(correction.confidence);
      ticket.queue := Some(AssignQueue(correction));
      answer := Updated(ticket.Columns());
      session.Commit();
    }

    /** Only administrators assign, and only to an active support agent; both are checked before the lock. */
    method AssignAgent(t: TicketId, agent: Option<User>) returns (answer: Answer)
      requires session.Idle() && t !in session.db.locks
      modifies session, session.db
      ensures !MayAssign(caller, agent) ==> answer == Forbidden && session.db.rows == old(session.db.rows)
      ensures answer.Forbidden? <==> || caller.None? || caller.value.role != Admin
                                     || agent.None? || agent.value.role != SupportAgent || !agent.value.active
      ensures answer.Updated? ==>
                && t in old(session.db.rows) && t in session.db.rows && agent.Some?
                && session.db.rows[t] == old(session.db.rows)[t].(agent := Some(agent.value.id)) == answer.row
      ensures MayAssign(caller, agent) ==>
                EditOutcome(old(session.db.rows), session.db.rows, t, true, Assign(agent.value.id), answer)
      ensures session.Idle() && session.db.locks == old(session.db.locks) && session.db.dead == old(session.db.dead)
    {
      if !MayAssign(caller, agent) {
        return Forbidden;
      }
      var found := session.GetForUpdate(t);
      if !found {
        return NotFound;
      }
      session.ticket.agent := Some(agent.value.id);
      answer := Updated(session.ticket.Columns());
      session.Commit();
    }
  }

  /** On an existing ticket, customers and internal callers are refused and change nothing; the others succeed. */
  ghost predicate EditedByRole(caller: Caller, rows: map<TicketId, Row>, rows': map<TicketId, Row>, answer: Answer) {
    if caller.Some? && (caller.value.role == SupportAgent || caller.value.role == Admin) then answer.Updated?
    else answer == Forbidden && rows' == rows
  }

  /** An edit answers and changes the table as its transaction function says, or leaves it alone. */
  ghost predicate EditOutcome(rows: map<TicketId, Row>, rows': map<TicketId, Row>, t: TicketId, allowed: bool,
                              kind: EditKind, answer: Answer)
  {
    if t !in rows then answer == NotFound && rows' == rows
    else if !allowed then answer == Forbidden && rows' == rows
    else answer == Updated(EditedRow(rows[t], kind)) && rows' == rows[t := EditedRow(rows[t], kind)]
  }
}
