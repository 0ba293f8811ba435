/**
 The two-model retry engine: each model gets its own bounded budget of attempts,
 with capped exponential backoff between them. A provider run is a script of
 outcomes, the jitter of each sleep is a number from 0 on, cut to the cap of its draw.
 */
module RetryEngine {
  import opened Domain
  import opened Pricing

  /** A retry header as the engine can read it; an empty header counts as absent. */
  datatype Header = Absent | Number(value: real) | HttpDate(secondsAhead: real) | Unparsable

  /** What one provider attempt can raise. */
  datatype ProviderError =
    | TimedOut
    | ApiTimedOut
    | ApiStatus(code: int, retryAfterMs: Header, retryAfter: Header)
    | ConnectionBroken
    | OtherError

  /** What the engine raises. */
  datatype ServiceError =
    | Provider(error: ProviderError)
    | RetriesExhausted(model: string, attempts: nat, cause: ProviderError)
    | AllModelsFailed(model: string, attempts: nat, cause: ProviderError)
    | LoopExited

  /** Usage fields are optional and unchecked. */
  datatype Response = Response(
    classification: Classification,
    model: Option<string>,
    inputTokens: Option<int>,
    cachedTokens: Option<int>,
    outputTokens: Option<int>,
    totalTokens: Option<int>)

  datatype Outcome = Answer(response: Response) | Fault(error: ProviderError)

  datatype ModelRun = Answered(response: Response, attempts: nat) | Raised(error: ServiceError)

  datatype Classified = Success(result: Result) | Failure(error: ServiceError)

  // ---------- error predicates and delays ----------

  predicate RetryableProvider(e: ProviderError) {
    match e
    case TimedOut => true
    case ApiTimedOut => true
    case ApiStatus(code, _, _) => code in {429, 500, 502, 503, 504}
    case ConnectionBroken => false
    case OtherError => false
  }

  predicate RetryableService(e: ServiceError) {
    e.Provider? && RetryableProvider(e.error)
  }

  function AtLeastZero(x: real): real { if x < 0.0 then 0.0 else x }

  function RetryAfterSeconds(e: ProviderError): Option<real> {
    if !e.ApiStatus? then None
    else if e.retryAfterMs.Number? then Some(AtLeastZero(e.retryAfterMs.value / 1000.0))
    else match e.retryAfter
      case Absent => None
      case Number(v) => Some(AtLeastZero(v))
      case HttpDate(d) => Some(AtLeastZero(d))
      case Unparsable => None
  }

  function Pow2(n: nat): nat { if n == 0 then 1 else 2 * Pow2(n - 1) }

  function MinReal(a: real, b: real): real { if a < b then a else b }
  function MaxReal(a: real, b: real): real { if a < b then b else a }

  /** base doubled k times, which is base * 2^k. */
  function Doubled(base: real, k: nat): real {
    if k == 0 then base else 2.0 * Doubled(base, k - 1)
  }

  /** The upper end of the jitter interval after the given failed attempt. */
  function BackoffCap(cfg: Settings, failedAttempt: nat): real
    requires 1 <= failedAttempt
  {
    MinReal(cfg.backoffMax, Doubled(cfg.backoffBase, failedAttempt - 1))
  }

  /**
   What random.uniform(0, cap) draws. The jitter stands for the generator: every jitter from 0 on
   gives a draw between 0 and the cap, and every such draw is given by some jitter.
   */
  function Uniform(cap: real, jitter: real): real { MinReal(cap, jitter) }

  function RetryDelay(cfg: Settings, failedAttempt: nat, e: ProviderError, jitter: real): real
    requires 1 <= failedAttempt
  {
    LongerDelay(Uniform(BackoffCap(cfg, failedAttempt), jitter), RetryAfterSeconds(e), cfg.retryAfterMax)
  }

  /** A Retry-After header, cut to its ceiling, can only lengthen the exponential delay. */
  function LongerDelay(exponential: real, retryAfter: Option<real>, ceiling: real): real {
    match retryAfter
    case None => exponential
    case Some(after) => MaxReal(exponential, MinReal(after, ceiling))
  }

  function UsageValue(value: Option<int>, default: int): int {
    match value
    case None => default
    case Some(v) => Max(0, v)
  }

  // ---------- reference: one scan over the script ----------

  predicate Retryable(o: Outcome) { o.Fault? && RetryableProvider(o.error) }

  /** The n outcomes from the given index are all retryable failures. */
  ghost predicate AllRetryable(script: seq<Outcome>, from: nat, n: nat)
    requires from + n <= |script|
  {
    forall i {:trigger script[i]} :: from <= i < from + n ==> Retryable(script[i])
  }

  /** The least index in [from, from + n) whose outcome ends the scan, or from + n. */
  function FirstDecisive(script: seq<Outcome>, from: nat, n: nat): (i: nat)
    requires from + n <= |script|
    ensures from <= i <= from + n
    ensures AllRetryable(script, from, i - from)
    ensures i < from + n ==> !Retryable(script[i])
    decreases n
  {
    if n == 0 || !Retryable(script[from]) then from else FirstDecisive(script, from + 1, n - 1)
  }

  function BuildResult(cfg: Settings, r: Response, defaultModel: string, attempts: nat): (result: Result)
    requires ValidRates(cfg.primaryRates) && ValidRates(cfg.fallbackRates) && 1 <= attempts
    ensures result.attempts == attempts
  {
    var input := UsageValue(r.inputTokens, 0);
    var cached := UsageValue(r.cachedTokens, 0);
    var output := UsageValue(r.outputTokens, 0);
    var model := if r.model.Some? && r.model.value != "" then r.model.value else defaultModel;
    var usage := Usage(input, cached, output);
    EstimateNonNegative(RatesForModel(model, cfg), usage);
    Result(r.classification, model, UsageValue(r.totalTokens, input + output),
           EstimateCost(RatesForModel(model, cfg), usage), attempts)
  }

  /** How many provider calls a classification makes. */
  function CallsMade(cfg: Settings, script: seq<Outcome>): (n: nat)
    requires 2 * cfg.maxAttempts <= |script|
    ensures n <= 2 * cfg.maxAttempts
  {
    Min(FirstDecisive(script, 0, 2 * cfg.maxAttempts) + 1, 2 * cfg.maxAttempts)
  }

  /** The whole engine as one scan of the first 2 * maxAttempts outcomes. */
  function Scan(cfg: Settings, script: seq<Outcome>): Classified
    requires 2 * cfg.maxAttempts <= |script|
    requires ValidRates(cfg.primaryRates) && ValidRates(cfg.fallbackRates)
  {
    var m := cfg.maxAttempts;
    var i := FirstDecisive(script, 0, 2 * m);
    if m == 0 then Failure(LoopExited)
    else if i == 2 * m then
      assert Retryable(script[2 * m - 1]);
      Failure(AllModelsFailed(cfg.fallbackModel, 2 * m, script[2 * m - 1].error))
    else match script[i]
      case Answer(r) => Success(BuildResult(cfg, r, if i < m then cfg.primaryModel else cfg.fallbackModel, i + 1))
      case Fault(e) => Failure(Provider(e))
  }

  /** The sleeps after the first n failed attempts of one model whose outcomes start at from. */
  function ModelSleeps(cfg: Settings, script: seq<Outcome>, jitter: seq<real>, from: nat, n: nat): (s: seq<real>)
    requires from + n <= |script| && from + n <= |jitter|
    requires AllRetryable(script, from, n)
    ensures |s| == n
    ensures forall k :: 0 <= k < n ==>
              s[k] == RetryDelay(cfg, k + 1, script[from + k].error, jitter[from + k])
  {
    if n == 0 then []
    else ModelSleeps(cfg, script, jitter, from, n - 1)
         + [RetryDelay(cfg, n, script[from + n - 1].error, jitter[from + n - 1])]
  }

  function Repeat(model: string, n: nat): (s: seq<string>)
    ensures |s| == n && forall i :: 0 <= i < n ==> s[i] == model
  {
    seq(n, _ => model)
  }

  /** How one model's budget ends, by the same scan over its own attempts. */
  function ModelOutcome(cfg: Settings, script: seq<Outcome>, start: nat, model: string): ModelRun
    requires start + cfg.maxAttempts <= |script|
  {
    var i := FirstDecisive(script, start, cfg.maxAttempts);
    if cfg.maxAttempts == 0 then Raised(LoopExited)
    else if i == start + cfg.maxAttempts then
      assert Retryable(script[i - 1]);
      Raised(RetriesExhausted(model, cfg.maxAttempts, script[i - 1].error))
    else match script[i]
      case Answer(r) => Answered(r, i - start + 1)
      case Fault(e) => Raised(Provider(e))
  }

  function ModelCalls(cfg: Settings, script: seq<Outcome>, start: nat): (n: nat)
    requires start + cfg.maxAttempts <= |script|
    ensures n <= cfg.maxAttempts && AllRetryable(script, start, Max(n - 1, 0))
  {
    Min(FirstDecisive(script, start, cfg.maxAttempts) - start + 1, cfg.maxAttempts)
  }

  // ---------- the engine, in the form of the source ----------

  /** One model's bounded retry budget, on the outcomes from start on. */
  method AttemptModel(cfg: Settings, script: seq<Outcome>, jitter: seq<real>, start: nat, model: string)
    returns (run: ModelRun, used: nat, sleeps: seq<real>)
    requires start + cfg.maxAttempts <= |script| && |script| <= |jitter|
    ensures run == ModelOutcome(cfg, script, start, model)
    ensures used == ModelCalls(cfg, script, start)
    ensures sleeps == ModelSleeps(cfg, script, jitter, start, Max(used - 1, 0))
  {
    sleeps, used := [], 0;
    ghost var decisive := FirstDecisive(script, start, cfg.maxAttempts);
    for attempt := 1 to cfg.maxAttempts + 1
      invariant used == attempt - 1
      invariant used <= decisive - start
      invariant used == cfg.maxAttempts ==> cfg.maxAttempts == 0
      invariant sleeps == ModelSleeps(cfg, script, jitter, start, used)
    {
      var outcome := script[start + used];
      used := used + 1;
      match outcome {
        case Answer(r) =>
          return Answered(r, attempt), used, sleeps;
        case Fault(e) =>
          var retryable := RetryableProvider(e);
          var isFinal := attempt >= cfg.maxAttempts;
          if isFinal || !retryable {
            if retryable {
              return Raised(RetriesExhausted(model, attempt, e)), used, sleeps;
            }
            return Raised(Provider(e)), used, sleeps;
          }
          sleeps := sleeps + [RetryDelay(cfg, attempt, e, jitter[start + used - 1])];
      }
    }
    return Raised(LoopExited), used, sleeps;
  }

  /** Classify with the primary model, then fall back after its retries are exhausted. */
  method ClassifyTicket(cfg: Settings, script: seq<Outcome>, jitter: seq<real>)
    returns (classified: Classified, calls: seq<string>, sleeps: seq<real>)
    requires 2 * cfg.maxAttempts <= |script| && |script| <= |jitter|
    requires ValidRates(cfg.primaryRates) && ValidRates(cfg.fallbackRates)
    ensures classified == Scan(cfg, script)
    ensures calls == ModelsCalled(cfg, CallsMade(cfg, script))
    ensures sleeps == AllSleeps(cfg, script, jitter)
  {
    hide Scan, ModelOutcome, BuildResult, FirstDecisive;
    var m := cfg.maxAttempts;
    NestedBudgetsAreOneScan(cfg, script);
    var run, used, slept := AttemptModel(cfg, script, jitter, 0, cfg.primaryModel);
    calls, sleeps := Repeat(cfg.primaryModel, used), slept;
    var defaultModel := cfg.primaryModel;
    if run.Raised? && run.error.RetriesExhausted? {
      var primaryAttempts := run.error.attempts;
      defaultModel := cfg.fallbackModel;
      run, used, slept := AttemptModel(cfg, script, jitter, m, cfg.fallbackModel);
      calls, sleeps := calls + Repeat(cfg.fallbackModel, used), sleeps + slept;
      if run.Raised? && run.error.RetriesExhausted? {
        return Failure(AllModelsFailed(run.error.model, primaryAttempts + run.error.attempts, run.error.cause)),
               calls, sleeps;
      }
      if run.Answered? {
        run := run.(attempts := primaryAttempts + run.attempts);
      }
    }
    if run.Raised? {
      return Failure(run.error), calls, sleeps;
    }
    return Success(BuildResult(cfg, run.response, defaultModel, run.attempts)), calls, sleeps;
  }

  /** The models called, in order, when n calls are made. */
  function ModelsCalled(cfg: Settings, n: nat): seq<string> {
    Repeat(cfg.primaryModel, Min(n, cfg.maxAttempts)) + Repeat(cfg.fallbackModel, Max(n - cfg.maxAttempts, 0))
  }

  /** All sleeps of a classification: those of the primary budget, then those of the fallback budget. */
  function AllSleeps(cfg: Settings, script: seq<Outcome>, jitter: seq<real>): seq<real>
    requires 2 * cfg.maxAttempts <= |script| && |script| <= |jitter|
  {
    var n, m := CallsMade(cfg, script), cfg.maxAttempts;
    ModelSleeps(cfg, script, jitter, 0, Max(Min(n, m) - 1, 0))
    + ModelSleeps(cfg, script, jitter, m, Max(n - m - 1, 0))
  }

  lemma ScanSplits(cfg: Settings, script: seq<Outcome>)
    requires 2 * cfg.maxAttempts <= |script|
    ensures var m := cfg.maxAttempts;
            var first := FirstDecisive(script, 0, m);
            FirstDecisive(script, 0, 2 * m) == if first < m then first else FirstDecisive(script, m, m)
  {
  }

  /** Two nested budgets with a fallback between them amount to the one scan. */
  lemma NestedBudgetsAreOneScan(cfg: Settings, script: seq<Outcome>)
    requires 2 * cfg.maxAttempts <= |script|
    requires ValidRates(cfg.primaryRates) && ValidRates(cfg.fallbackRates)
    ensures var m := cfg.maxAttempts;
            var p, f := ModelOutcome(cfg, script, 0, cfg.primaryModel), ModelOutcome(cfg, script, m, cfg.fallbackModel);
            var pCalls, fCalls := ModelCalls(cfg, script, 0), ModelCalls(cfg, script, m);
            var fellBack := p.Raised? && p.error.RetriesExhausted?;
            && CallsMade(cfg, script) == (if fellBack then pCalls + fCalls else pCalls)
            && (fellBack ==> pCalls == m == p.error.attempts && 1 <= fCalls)
            && Scan(cfg, script) ==
               if p.Answered? then Success(BuildResult(cfg, p.response, cfg.primaryModel, p.attempts))
               else if !fellBack then Failure(p.error)
               else if f.Answered? then Success(BuildResult(cfg, f.response, cfg.fallbackModel, m + f.attempts))
               else if f.error.RetriesExhausted?
               then Failure(AllModelsFailed(f.error.model, m + f.error.attempts, f.error.cause))
               else Failure(f.error)
  {
    ScanSplits(cfg, script);
  }

  // ---------- what the engine guarantees, for every script ----------

  lemma DecisiveIs(script: seq<Outcome>, from: nat, n: nat, i: nat)
    requires from <= i <= from + n <= |script|
    requires AllRetryable(script, from, i - from)
    requires i < from + n ==> !Retryable(script[i])
    ensures FirstDecisive(script, from, n) == i
    decreases n
  {
  }

  /**
   The first outcome that is not a retryable failure decides the classification:
   an answer is returned with its attempt number and the model whose budget it fell in,
   a permanent fault is raised as it is.
   */
  lemma FirstDecisiveOutcomeWins(cfg: Settings, script: seq<Outcome>, i: nat)
    requires ValidSettings(cfg) && i < 2 * cfg.maxAttempts <= |script|
    requires AllRetryable(script, 0, i) && !Retryable(script[i])
    ensures CallsMade(cfg, script) == i + 1
    ensures script[i].Fault? ==> Scan(cfg, script) == Failure(Provider(script[i].error))
    ensures script[i].Answer? ==>
              && Scan(cfg, script).Success?
              && var result := Scan(cfg, script).result;
              && result.attempts == i + 1
              && result.classification == script[i].response.classification
              && (script[i].response.model == None ==>
                    result.model == if i < cfg.maxAttempts then cfg.primaryModel else cfg.fallbackModel)
  {
    DecisiveIs(script, 0, 2 * cfg.maxAttempts, i);
  }

  /** A count that is missing or negative is zero. */
  ghost function Reading(count: Option<int>): nat { if count.Some? && 0 < count.value then count.value else 0 }

  /**
   An answer is accounted with the usage that it reports: its total tokens, or input and output together
   when it gives no total, and to half a quantum the price of exactly them at the rates of its model,
   which is the one that it names, or the one whose budget it fell in when it names none.
   */
  lemma AnswersAreAccounted(cfg: Settings, script: seq<Outcome>, i: nat)
    requires ValidSettings(cfg) && i < 2 * cfg.maxAttempts <= |script|
    requires AllRetryable(script, 0, i) && script[i].Answer?
    ensures Scan(cfg, script).Success?
    ensures var r, result := script[i].response, Scan(cfg, script).result;
            && (r.totalTokens.None? ==> result.totalTokens == Reading(r.inputTokens) + Reading(r.outputTokens))
            && (r.totalTokens.Some? ==> result.totalTokens == Reading(r.totalTokens))
            && (r.model.Some? && r.model.value != "" ==> result.model == r.model.value)
            && (r.model == None || r.model == Some("") ==>
                  result.model == if i < cfg.maxAttempts then cfg.primaryModel else cfg.fallbackModel)
    ensures var r, result := script[i].response, Scan(cfg, script).result;
            var usage := Usage(Reading(r.inputTokens), Reading(r.cachedTokens), Reading(r.outputTokens));
            var error := result.cost - ExactCost(RatesForModel(result.model, cfg), usage);
            -0.5 / QUANTA_PER_DOLLAR < error <= 0.5 / QUANTA_PER_DOLLAR
  {
    FirstDecisiveOutcomeWins(cfg, script, i);
    DecisiveIs(script, 0, 2 * cfg.maxAttempts, i);
    var r := script[i].response;
    EstimateWithinHalfQuantum(RatesForModel(Scan(cfg, script).result.model, cfg),
                              Usage(Reading(r.inputTokens), Reading(r.cachedTokens), Reading(r.outputTokens)));
  }

  /** When both budgets meet only retryable failures, all of them are spent and the last one is the cause. */
  lemma AllRetryableExhaustsBothModels(cfg: Settings, script: seq<Outcome>)
    requires ValidSettings(cfg) && 2 * cfg.maxAttempts <= |script|
    requires AllRetryable(script, 0, 2 * cfg.maxAttempts)
    ensures CallsMade(cfg, script) == 2 * cfg.maxAttempts
    ensures Retryable(script[2 * cfg.maxAttempts - 1])
    ensures Scan(cfg, script)
         == Failure(AllModelsFailed(cfg.fallbackModel, 2 * cfg.maxAttempts, script[2 * cfg.maxAttempts - 1].error))
  {
    DecisiveIs(script, 0, 2 * cfg.maxAttempts, 2 * cfg.maxAttempts);
  }

  /** No error leaves the engine that its own predicate would retry, and both loops always return or raise. */
  lemma EngineErrorsAreFinal(cfg: Settings, script: seq<Outcome>)
    requires 2 * cfg.maxAttempts <= |script|
    requires ValidRates(cfg.primaryRates) && ValidRates(cfg.fallbackRates)
    ensures match Scan(cfg, script)
            case Failure(e) =>
              && !RetryableService(e)
              && !e.RetriesExhausted?
              && (e.LoopExited? <==> cfg.maxAttempts == 0)
              && (e.AllModelsFailed? <==> 1 <= cfg.maxAttempts && AllRetryable(script, 0, 2 * cfg.maxAttempts))
              && (e.AllModelsFailed? ==> e.attempts == 2 * cfg.maxAttempts)
            case Success(result) =>
              1 <= result.attempts == CallsMade(cfg, script)
  {
    var i := FirstDecisive(script, 0, 2 * cfg.maxAttempts);
    if i < 2 * cfg.maxAttempts {
      assert !Retryable(script[i]);
    }
  }

  /** Faults that pass: timeouts, rate limiting and errors of the provider's servers. */
  ghost predicate Transient(o: Outcome) {
    && o.Fault?
    && (|| o.error.TimedOut? || o.error.ApiTimedOut?
        || (o.error.ApiStatus? && (|| o.error.code == 429 || o.error.code == 500 || o.error.code == 502
                                   || o.error.code == 503 || o.error.code == 504)))
  }

  /** Transient faults are tried again until the first answer, which counts the attempts before it. */
  lemma TransientFaultsAreRetried(cfg: Settings, script: seq<Outcome>, i: nat)
    requires ValidSettings(cfg) && i < 2 * cfg.maxAttempts <= |script| && script[i].Answer?
    requires forall j :: 0 <= j < i ==> Transient(script[j])
    ensures CallsMade(cfg, script) == i + 1
    ensures Scan(cfg, script).Success? && Scan(cfg, script).result.attempts == i + 1
    ensures Scan(cfg, script).result.classification == script[i].response.classification
  {
    FirstDecisiveOutcomeWins(cfg, script, i);
  }

  /** Any other fault is raised as it is, at once. */
  lemma OtherFaultsAreRaised(cfg: Settings, script: seq<Outcome>, i: nat)
    requires ValidSettings(cfg) && i < 2 * cfg.maxAttempts <= |script| && script[i].Fault? && !Transient(script[i])
    requires forall j :: 0 <= j < i ==> Transient(script[j])
    ensures CallsMade(cfg, script) == i + 1 && Scan(cfg, script) == Failure(Provider(script[i].error))
  {
    FirstDecisiveOutcomeWins(cfg, script, i);
  }

  /** Transient faults throughout spend both budgets. */
  lemma TransientFaultsExhaust(cfg: Settings, script: seq<Outcome>)
    requires ValidSettings(cfg) && 2 * cfg.maxAttempts <= |script|
    requires forall j :: 0 <= j < 2 * cfg.maxAttempts ==> Transient(script[j])
    ensures CallsMade(cfg, script) == 2 * cfg.maxAttempts && Scan(cfg, script).Failure?
    ensures var e := Scan(cfg, script).error;
            e.AllModelsFailed? && e.attempts == 2 * cfg.maxAttempts && e.model == cfg.fallbackModel
  {
    AllRetryableExhaustsBothModels(cfg, script);
  }

  /** Only transient faults throughout end in exhaustion. */
  lemma ExhaustionIff(cfg: Settings, script: seq<Outcome>)
    requires ValidSettings(cfg) && 2 * cfg.maxAttempts <= |script|
    ensures (Scan(cfg, script).Failure? && Scan(cfg, script).error.AllModelsFailed?)
       <==> forall j :: 0 <= j < 2 * cfg.maxAttempts ==> Transient(script[j])
  {
    EngineErrorsAreFinal(cfg, script);
    assert forall j :: 0 <= j < 2 * cfg.maxAttempts ==> (Transient(script[j]) <==> Retryable(script[j]));
  }

  /** What the headers of a refused request ask for: milliseconds first, then seconds or a date, nothing in the past. */
  lemma WaitsAskedFor(code: int, ms: Header, after: Header)
    ensures var wait := RetryAfterSeconds(ApiStatus(code, ms, after));
            && (ms.Number? && 0.0 <= ms.value ==> wait == Some(ms.value / 1000.0))
            && (ms.Number? && ms.value < 0.0 ==> wait == Some(0.0))
            && (!ms.Number? && after.Number? ==> wait == Some(if after.value < 0.0 then 0.0 else after.value))
            && (!ms.Number? && after.HttpDate? ==> wait == Some(if after.secondsAhead < 0.0 then 0.0 else after.secondsAhead))
            && (!ms.Number? && (after.Absent? || after.Unparsable?) ==> wait == None)
    ensures forall e: ProviderError :: !e.ApiStatus? ==> RetryAfterSeconds(e) == None
  {
  }

  /** Some draw gives this delay. */
  ghost predicate CanDelay(cfg: Settings, k: nat, e: ProviderError, delay: real)
    requires 1 <= k
  {
    exists jitter :: 0.0 <= jitter && RetryDelay(cfg, k, e, jitter) == delay
  }

  /**
   The delays possible after the k-th failed attempt of a model are exactly those from the wait that the
   provider asked for, up to its ceiling, to the larger of that and the capped exponential backoff.
   */
  lemma DelaysAreExactly(cfg: Settings, k: nat, e: ProviderError, delay: real)
    requires ValidSettings(cfg) && 1 <= k
    ensures var cap, wait := MinReal(cfg.backoffMax, cfg.backoffBase * Pow2(k - 1) as real), RetryAfterSeconds(e);
            var least := if wait.Some? then MinReal(wait.value, cfg.retryAfterMax) else 0.0;
            CanDelay(cfg, k, e, delay) <==> least <= delay <= MaxReal(least, cap)
  {
    CapIs(cfg, k);
    DelayRange(cfg, k, e, delay);
  }

  lemma CapIs(cfg: Settings, k: nat)
    requires ValidSettings(cfg) && 1 <= k
    ensures BackoffCap(cfg, k) == MinReal(cfg.backoffMax, cfg.backoffBase * Pow2(k - 1) as real)
  {
    var power := Pow2(k - 1) as real;
    DoubledIsProduct(cfg.backoffBase, k - 1);
    var product := cfg.backoffBase * power;
    assert Doubled(cfg.backoffBase, k - 1) == product;
  }

  lemma DelayRange(cfg: Settings, k: nat, e: ProviderError, delay: real)
    requires ValidSettings(cfg) && 1 <= k
    ensures var wait := RetryAfterSeconds(e);
            var least := if wait.Some? then MinReal(wait.value, cfg.retryAfterMax) else 0.0;
            CanDelay(cfg, k, e, delay) <==> least <= delay <= MaxReal(least, BackoffCap(cfg, k))
  {
    CapBounds(cfg, k);
    var wait := RetryAfterSeconds(e);
    var least := if wait.Some? then MinReal(wait.value, cfg.retryAfterMax) else 0.0;
    if least <= delay <= MaxReal(least, BackoffCap(cfg, k)) {
      var jitter := if delay <= BackoffCap(cfg, k) then delay else 0.0;
      assert RetryDelay(cfg, k, e, jitter) == delay;
    }
  }

  /** The fallback model is called only after the primary budget is spent, each model at most maxAttempts times. */
  lemma CallsArePrimaryThenFallback(cfg: Settings, script: seq<Outcome>, k: nat)
    requires 2 * cfg.maxAttempts <= |script|
    requires k < |ModelsCalled(cfg, CallsMade(cfg, script))|
    ensures |ModelsCalled(cfg, CallsMade(cfg, script))| == CallsMade(cfg, script) <= 2 * cfg.maxAttempts
    ensures ModelsCalled(cfg, CallsMade(cfg, script))[k]
         == if k < cfg.maxAttempts then cfg.primaryModel else cfg.fallbackModel
  {
  }

  /** One sleep between consecutive attempts of the same model, none between the two models. */
  lemma SleepCount(cfg: Settings, script: seq<Outcome>, jitter: seq<real>)
    requires ValidSettings(cfg) && 2 * cfg.maxAttempts <= |script| <= |jitter|
    ensures var n := CallsMade(cfg, script);
            var modelsTried := if n <= cfg.maxAttempts then 1 else 2;
            |AllSleeps(cfg, script, jitter)| == n - modelsTried
  {
  }

  ghost predicate ValidJitter(jitter: seq<real>) {
    forall i :: 0 <= i < |jitter| ==> 0.0 <= jitter[i]
  }

  lemma {:induction false} DoubledIsPositive(base: real, k: nat)
    requires 0.0 < base
    ensures base <= Doubled(base, k)
  {
    if k == 0 {
    } else {
      DoubledIsPositive(base, k - 1);
    }
  }

  lemma CapBounds(cfg: Settings, k: nat)
    requires ValidSettings(cfg) && 1 <= k
    ensures 0.0 < BackoffCap(cfg, k) <= cfg.backoffMax
  {
    DoubledIsPositive(cfg.backoffBase, k - 1);
  }

  lemma DelayBounds(cfg: Settings, k: nat, e: ProviderError, jitter: real)
    requires ValidSettings(cfg) && 1 <= k && 0.0 <= jitter
    ensures 0.0 <= RetryDelay(cfg, k, e, jitter) <= MaxReal(cfg.backoffMax, cfg.retryAfterMax)
    ensures RetryAfterSeconds(e).Some? ==>
              MinReal(RetryAfterSeconds(e).value, cfg.retryAfterMax) <= RetryDelay(cfg, k, e, jitter)
    ensures RetryAfterSeconds(e).None? ==>
              RetryDelay(cfg, k, e, jitter) <= BackoffCap(cfg, k)
  {
    CapBounds(cfg, k);
  }

  lemma ModelSleepBounds(cfg: Settings, script: seq<Outcome>, jitter: seq<real>, from: nat, n: nat, k: nat)
    requires ValidSettings(cfg) && ValidJitter(jitter)
    requires from + n <= |script| && from + n <= |jitter|
    requires AllRetryable(script, from, n) && k < n
    ensures var sleep := ModelSleeps(cfg, script, jitter, from, n)[k];
            && 0.0 <= sleep <= MaxReal(cfg.backoffMax, cfg.retryAfterMax)
            && var after := RetryAfterSeconds(script[from + k].error);
            && (after.Some? ==> MinReal(after.value, cfg.retryAfterMax) <= sleep)
  {
    DelayBounds(cfg, k + 1, script[from + k].error, jitter[from + k]);
  }

  /**
   Every sleep of a classification follows a retryable failure; it respects both ceilings, and
   a Retry-After header up to its own ceiling.
   */
  lemma SleepBounds(cfg: Settings, script: seq<Outcome>, jitter: seq<real>, k: nat)
    requires ValidSettings(cfg) && ValidJitter(jitter)
    requires 2 * cfg.maxAttempts <= |script| <= |jitter| && k < |AllSleeps(cfg, script, jitter)|
    ensures var sleep, call := AllSleeps(cfg, script, jitter)[k], if k < cfg.maxAttempts - 1 then k else k + 1;
            && 0.0 <= sleep <= MaxReal(cfg.backoffMax, cfg.retryAfterMax)
            && call + 1 < CallsMade(cfg, script) && Retryable(script[call])
            && var after := RetryAfterSeconds(script[call].error);
            && (after.Some? ==> MinReal(after.value, cfg.retryAfterMax) <= sleep)
  {
    var n, m := CallsMade(cfg, script), cfg.maxAttempts;
    var first := Max(Min(n, m) - 1, 0);
    if k < first {
      ModelSleepBounds(cfg, script, jitter, 0, first, k);
    } else {
      ModelSleepBounds(cfg, script, jitter, m, Max(n - m - 1, 0), k - first);
    }
  }

  ghost function SumReals(s: seq<real>): real {
    if s == [] then 0.0 else SumReals(s[..|s| - 1]) + s[|s| - 1]
  }

  lemma {:induction false} DoubledIsProduct(base: real, k: nat)
    ensures Doubled(base, k) == base * Pow2(k) as real
  {
    if k == 0 {
    } else {
      DoubledIsProduct(base, k - 1);
      TwiceProduct(base, Pow2(k - 1) as real);
    }
  }

  lemma TwiceProduct(x: real, y: real)
    ensures 2.0 * (x * y) == x * (2.0 * y)
  {
    calc {
      2.0 * (x * y);
      x * y + x * y;
      x * (y + y);
    }
  }

  lemma DoublingsAreProduct(base: real, k: nat)
    ensures Doubled(base, k) - base == base * (Pow2(k) - 1) as real
  {
    DoubledIsProduct(base, k);
    LessOne(base, Pow2(k) as real);
  }

  lemma LessOne(x: real, y: real)
    ensures x * y - x == x * (y - 1.0)
  {
  }

  /** x added n times. */
  function Times(n: nat, x: real): real {
    if n == 0 then 0.0 else Times(n - 1, x) + x
  }

  lemma {:induction false} TimesIsProduct(n: nat, x: real)
    ensures Times(n, x) == n as real * x
  {
    if n == 0 {
      assert n as real == 0.0;
    } else {
      TimesIsProduct(n - 1, x);
      calc {
        n as real * x;
        ((n - 1) as real + 1.0) * x;
        (n - 1) as real * x + x;
      }
    }
  }

  lemma {:induction false} SumBelowCeiling(s: seq<real>, ceiling: real)
    requires forall k :: 0 <= k < |s| ==> s[k] <= ceiling
    ensures SumReals(s) <= Times(|s|, ceiling)
  {
    if s == [] {
    } else {
      SumBelowCeiling(s[..|s| - 1], ceiling);
    }
  }

  lemma {:induction false} SumBelowDoubling(s: seq<real>, base: real)
    requires forall k :: 0 <= k < |s| ==> s[k] <= Doubled(base, k)
    ensures SumReals(s) <= Doubled(base, |s|) - base
  {
    if s == [] {
    } else {
      SumBelowDoubling(s[..|s| - 1], base);
    }
  }

  /**
   Without Retry-After headers, n sleeps of one model last at most n times the backoff ceiling,
   and at most base * (2^n - 1) seconds; a budget of M attempts sleeps at most M - 1 times.
   */
  lemma TotalBackoffBound(cfg: Settings, script: seq<Outcome>, jitter: seq<real>, from: nat, n: nat)
    requires ValidSettings(cfg) && ValidJitter(jitter)
    requires from + n <= |script| && from + n <= |jitter|
    requires AllRetryable(script, from, n)
    requires forall i {:trigger script[i]} :: from <= i < from + n ==> RetryAfterSeconds(script[i].error).None?
    ensures var total := SumReals(ModelSleeps(cfg, script, jitter, from, n));
            && total <= n as real * cfg.backoffMax
            && total <= cfg.backoffBase * (Pow2(n) - 1) as real
  {
    hide *;
    var sleeps := ModelSleeps(cfg, script, jitter, from, n);
    SleepsAreCapped(cfg, script, jitter, from, n, sleeps);
    SumOfCapped(sleeps, n, cfg.backoffBase, cfg.backoffMax);
  }

  lemma SumOfCapped(s: seq<real>, n: nat, base: real, ceiling: real)
    requires |s| == n
    requires forall k :: 0 <= k < n ==> s[k] <= ceiling && s[k] <= Doubled(base, k)
    ensures SumReals(s) <= n as real * ceiling
    ensures SumReals(s) <= base * (Pow2(n) - 1) as real
  {
    SumBelowCeiling(s, ceiling);
    TimesIsProduct(n, ceiling);
    SumBelowDoubling(s, base);
    DoublingsAreProduct(base, n);
  }

  lemma SleepsAreCapped(cfg: Settings, script: seq<Outcome>, jitter: seq<real>, from: nat, n: nat, sleeps: seq<real>)
    requires ValidSettings(cfg) && ValidJitter(jitter)
    requires from + n <= |script| && from + n <= |jitter|
    requires AllRetryable(script, from, n)
    requires forall i {:trigger script[i]} :: from <= i < from + n ==> RetryAfterSeconds(script[i].error).None?
    requires sleeps == ModelSleeps(cfg, script, jitter, from, n)
    ensures forall k :: 0 <= k < |sleeps| ==> sleeps[k] <= cfg.backoffMax
    ensures forall k :: 0 <= k < |sleeps| ==> sleeps[k] <= Doubled(cfg.backoffBase, k)
  {
    forall k | 0 <= k < n
      ensures sleeps[k] <= cfg.backoffMax && sleeps[k] <= Doubled(cfg.backoffBase, k)
    {
      SleepWithoutHeader(cfg, k, script[from + k].error, jitter[from + k]);
    }
  }

  lemma SleepWithoutHeader(cfg: Settings, k: nat, e: ProviderError, jitter: real)
    requires ValidSettings(cfg) && 0.0 <= jitter && RetryAfterSeconds(e).None?
    ensures RetryDelay(cfg, k + 1, e, jitter) <= cfg.backoffMax
    ensures RetryDelay(cfg, k + 1, e, jitter) <= Doubled(cfg.backoffBase, k)
  {
  }
}
