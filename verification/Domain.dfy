/**
 Entities shared by every part of the model: ticket rows, classifications,
 settings, dead letters and the routing table.
 */
module Domain {

  datatype Option<+T> = None | Some(value: T)

  function Max(a: int, b: int): int { if a < b then b else a }
  function Min(a: int, b: int): int { if a < b then a else b }

  type TicketId = nat
  type UserId = nat

  /** Celery assigns an id per published task; inline processing derives its id from the ticket. */
  datatype TaskId = Celery(n: nat) | Inline(ticket: TicketId)

  datatype Status = Pending | Processing | Complete | Failed
  datatype Urgency = Low | Medium | High | Critical
  datatype Category = Billing | Technical | Bug | Account | General

  datatype Classification = Classification(urgency: Urgency, category: Category, confidence: real)

  datatype RawResult = Result(
    classification: Classification,
    model: string,
    totalTokens: nat,
    cost: real,
    attempts: nat)

  /** A classification with the metadata that the worker persists, as its schema validates it. */
  type Result = r: RawResult | 1 <= r.attempts && 0.0 <= r.cost
    witness Result(Classification(Low, General, 0.0), "", 0, 0.0, 1)

  /** One row of the ticket table. */
  datatype Row = Row(
    title: string,
    description: string,
    createdAt: nat,
    customer: Option<UserId>,
    agent: Option<UserId>,
    status: Status,
    urgency: Option<Urgency>,
    category: Option<Category>,
    queue: Option<string>,
    confidence: Option<real>,
    model: Option<string>,
    tokens: nat,
    processingMs: Option<nat>,
    cost: Option<real>,
    retryCount: nat)

  datatype DeadLetter = DeadLetter(ticket: TicketId, task: TaskId, retryCount: nat)

  datatype TokenRates = TokenRates(input: real, cached: real, output: real)

  datatype Settings = Settings(
    maxAttempts: nat,
    primaryModel: string,
    fallbackModel: string,
    backoffBase: real,
    backoffMax: real,
    retryAfterMax: real,
    primaryRates: TokenRates,
    fallbackRates: TokenRates,
    taskMaxRetries: nat)

  ghost predicate ValidRates(rates: TokenRates) {
    0.0 <= rates.input && 0.0 <= rates.cached && 0.0 <= rates.output
  }

  /** The bounds that settings validation puts on the retry engine, without its upper limits. */
  ghost predicate ValidSettings(cfg: Settings) {
    && 1 <= cfg.maxAttempts
    && 0.0 < cfg.backoffBase
    && 0.0 < cfg.backoffMax
    && 0.0 < cfg.retryAfterMax
    && ValidRates(cfg.primaryRates)
    && ValidRates(cfg.fallbackRates)
  }

  /** Critical urgency takes precedence over the category's department. */
  function RouteFor(urgency: Urgency, category: Category): string {
    if urgency == Critical then "emergency"
    else match category
      case Technical => "engineering"
      case Bug => "engineering"
      case Billing => "finance"
      case Account => "customer-success"
      case General => "support"
  }

  /** Critical tickets and they alone go to the emergency queue; any other goes to its category's department. */
  lemma QueuesByDepartment(urgency: Urgency, category: Category)
    ensures RouteFor(urgency, category) == "emergency" <==> urgency == Critical
    ensures RouteFor(urgency, category) == "engineering" <==> urgency != Critical && (category == Technical || category == Bug)
    ensures RouteFor(urgency, category) == "finance" <==> urgency != Critical && category == Billing
    ensures RouteFor(urgency, category) == "customer-success" <==> urgency != Critical && category == Account
    ensures RouteFor(urgency, category) == "support" <==> urgency != Critical && category == General
  {
    assert "emergency"[1] == 'm' && "engineering"[1] == 'n' && "finance"[1] == 'i';
    assert "customer-success"[0] == 'c' && "support"[0] == 's' && "finance"[0] == 'f';
  }

  function AssignQueue(c: Classification): string {
    RouteFor(c.urgency, c.category)
  }

  /** A row as the intake inserts it. */
  function NewRow(title: string, description: string, createdAt: nat, customer: Option<UserId>): Row {
    Row(title, description, createdAt, customer, None, Pending,
        None, None, None, None, None, 0, None, None, 0)
  }

  /** Urgency, category and queue are all null, or all set with the queue that routing assigns. */
  ghost predicate Routed(row: Row) {
    || (row.urgency.None? && row.category.None? && row.queue.None?)
    || (row.urgency.Some? && row.category.Some? && row.queue == Some(RouteFor(row.urgency.value, row.category.value)))
  }

  /** What completing a ticket writes into its row. */
  function CompletedRow(row: Row, result: Result, ms: nat): Row {
    row.(
      status := Complete,
      urgency := Some(result.classification.urgency),
      category := Some(result.classification.category),
      queue := Some(AssignQueue(result.classification)),
      confidence := Some(result.classification.confidence),
      model := Some(result.model),
      tokens := result.totalTokens,
      processingMs := Some(ms),
      cost := Some(result.cost),
      retryCount := row.retryCount + result.attempts - 1)
  }

  /** What recording a failure writes into a row. */
  function FailedRow(row: Row, increment: nat, willRetry: bool): Row {
    row.(status := if willRetry then Pending else Failed, retryCount := row.retryCount + increment)
  }

  // ---------- whole transactions, as functions of the row they lock ----------

  /** Claiming: a complete ticket is left alone. */
  function ClaimTransaction(row: Row): Row {
    if row.status == Complete then row else row.(status := Processing)
  }

  /** Finalising: a ticket that became complete meanwhile is left alone. */
  function FinaliseTransaction(row: Row, result: Result, ms: nat): Row {
    if row.status == Complete then row else CompletedRow(row, result, ms)
  }

  /** Recording a failure: a complete ticket is left alone. */
  function RecordTransaction(row: Row, increment: nat, willRetry: bool): Row {
    if row.status == Complete then row else FailedRow(row, increment, willRetry)
  }

  predicate HasLetter(dead: seq<DeadLetter>, task: TaskId) {
    exists i :: 0 <= i < |dead| && dead[i].task == task
  }


  /** The dead letters after recording a failure: a final one adds a letter unless its task has one. */
  function LettersTransaction(dead: seq<DeadLetter>, row: Row, t: TicketId, task: TaskId, retries: nat,
                              increment: nat, willRetry: bool): seq<DeadLetter>
  {
    if row.status == Complete || willRetry || HasLetter(dead, task) then dead
    else dead + [DeadLetter(t, task, Max(retries, row.retryCount + increment))]
  }

  /** Urgency, category, queue and confidence were copied from this one classification. */
  ghost predicate CarriesClassification(row: Row, c: Classification) {
    && row.urgency == Some(c.urgency)
    && row.category == Some(c.category)
    && row.queue == Some(AssignQueue(c))
    && row.confidence == Some(c.confidence)
  }

  ghost predicate Unclassified(row: Row) {
    row.urgency.None? && row.category.None? && row.queue.None? && row.confidence.None?
  }

  /** Model, tokens, cost and processing time are those of this one result. */
  ghost predicate CarriesMetadata(row: Row, result: Result, ms: nat) {
    && row.model == Some(result.model)
    && row.tokens == result.totalTokens
    && row.cost == Some(result.cost)
    && row.processingMs == Some(ms)
  }

  ghost predicate WithoutMetadata(row: Row) {
    row.model.None? && row.tokens == 0 && row.cost.None? && row.processingMs.None?
  }

  /** Edits that support agents and administrators commit on a ticket. */
  datatype EditKind =
    | SetStatus(status: Status)
    | Correct(classification: Classification)
    | Assign(agent: UserId)

  function EditedRow(row: Row, kind: EditKind): Row {
    match kind
    case SetStatus(status) => row.(status := status)
    case Correct(c) => row.(
      urgency := Some(c.urgency),
      category := Some(c.category),
      confidence := Some(c.confidence),
      queue := Some(AssignQueue(c)))
    case Assign(agent) => row.(agent := Some(agent))
  }
}
