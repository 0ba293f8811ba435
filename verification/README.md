# Ticket triage: a verified model

This project models the ticket classification backend and proves what its operations keep. It is
checked with `dafny verify dfyconfig.toml`.

- `Domain.dfy` holds the shared entities: ticket rows, classifications, dead letters, routing, and the
  three worker transactions as functions of the row they lock.
- `Protocol*.dfy` are the centre: workers, redelivered copies of one task, crashes, database faults,
  intake, agents and administrators interleave as a transition system. Every transaction is split into
  lock, read, check, insert and commit; a locked read copies the committed row, and the commit writes
  the session's copy back, so nothing but the row lock makes the transactions atomic. The theorems in
  `ProtocolRuns.dfy` hold for every behaviour of any length; those in `ProtocolSteps.dfy` say what each
  step does, in terms of faults, calls and columns.
- `Workflow.dfy` has the same services as classes whose methods lock, assign and commit ticket objects in
  place; each transaction is proved equal to the transaction function that the protocol's commits are
  atomic executions of.
- `RetryEngine.dfy` is the two-model retry loop with exceptions, proved to be one scan over a script of
  provider outcomes. `Pricing.dfy` is the cost estimate.
- `CachedReads.dfy` adds a clock and the cache; `RateLimit.dfy` is the Redis window counter.
- `Base64Url.dfy` and `Credentials.dfy` are the printers and parsers of tokens and password records:
  unpadded base64url (RFC 4648, sections 3.2 and 5), the JWS compact form (RFC 7515, section 7.1) and the
  `exp` claim of a JWT (RFC 7519, section 4.1.4).
- `LocalClassifier.dfy` is the keyword classifier; `Listing.dfy` and `Access.dfy` are listing and roles.

Clocks, random numbers, generated ids, provider outcomes and faults are inputs. Costs, confidences,
delays and times are exact reals; the cache counts whole seconds. Keyed hashing and key derivation are
function parameters about which nothing is assumed.

Some promises hold only under a condition. Each is given with its exact condition and an input that
breaks it:

- The repository's README (line 374) says that caching only completed tickets avoids invalidation races.
  The code lets agents edit completed tickets (app/services/ticket_service.py:174-218) and nothing
  invalidates their entries. A cached answer is the committed row as long as no edit changed the ticket
  since the read that filled the cache (`CachedReads.CachedReadsAreDirectReads`). If every read stores its
  row within d seconds, tickets that were not changed for g seconds are always answered correctly if and only
  if g is at least the time to live plus d (`CachedReads.AgreesAfterIff`). `CachedReads.StaleRun` is a run of
  the whole system that ends with a stale answer: a read copies the row, an edit commits, and the read then
  stores the old row.
- A customer's pages are sorted by creation time alone (app/repositories/tickets.py:60-63).
  `Listing.PagesTileIff` and `Listing.CustomerPagesTileIff` say exactly when they repeat no ticket and miss
  none, and `Listing.TwoTiedTicketsMayRepeat` is a pair of pages that does.
- The window counter outlives its window by one second (app/api/rate_limit.py:44). That second is exactly
  the delay between clock and transaction for which the limit holds: `RateLimit.LimitHoldsIff`, with
  `RateLimit.LateRequestsExceed` as the requests that break it. What passes is limited in all runs if and only
  if the limiter fails closed, which is not its default (`RateLimit.PassLimitHoldsIff`).
- A run adds at most 2 * maxAttempts - 1 to a ticket's retry count, unless an agent reopens the ticket after the
  run completed it and before the run reads it back (app/services/classification_service.py:74), and that read
  fails. `ProtocolRuns.RetryCountsAreBounded` has both bounds, `ProtocolExamples.OneRunCountsTwice` the run that
  exceeds the first and reaches the second.
- Cached input tokens make a request cheaper only if they are priced no higher than other input tokens:
  `Pricing.CachingNeverCostsIff`.

## Model

| member | source | states |
|---|---|---|
| ProtocolRuns.CompleteIsFinal | app/services/classification_service.py:53-70 | in every behaviour, whatever copies of whatever tasks run, no column of a complete ticket changes until an edit of that ticket commits |
| ProtocolRuns.WorkersKeepCompleteRows | app/services/classification_service.py:155-164 | no claim, finalise, failure record, fault or crash step changes a complete row |
| ProtocolRuns.CommitsAreAtomic | app/services/classification_service.py:105-138 | whatever ran between locked read and commit, each commit changes rows and letters as the whole transaction executed on the row as it is at that moment; only a final failure adds a letter |
| ProtocolRuns.LettersAreUniqueAndDurable | app/services/classification_service.py:123-138 | in every behaviour the dead letters only grow, and no task has two, although search and insert are separate steps and copies of one task race |
| ProtocolRuns.LetterCoversRetryCount | app/services/classification_service.py:128-136 | a letter is committed together with the FAILED status, with a retry count no lower than the row's |
| ProtocolRuns.RowsTellTheTruth | app/services/classification_service.py:60-70 | in every reachable state a row is routed consistently; model, tokens, cost and time are all unset or all from the ticket's latest completion, whatever agents did, and so are urgency, category, queue and confidence unless an agent corrected them; unless an agent set its status, a complete ticket was completed exactly once, a ticket that is not complete never, and a failed one has a dead letter |
| ProtocolRuns.EndedRunsDecideTheTicket | app/tasks/classification.py:121-152 | a dispatched ticket whose runs have all ended, whose status nobody edited and whose failure record was not lost, is complete, or failed with a dead letter |
| ProtocolRuns.RetriesHappenAsRecorded | app/tasks/classification.py:134-152 | a recorded failure announces a retry exactly when its run goes on to retry, unless the worker dies; only database and connection faults are retried |
| ProtocolRuns.RetryCountsAddUp | app/services/classification_service.py:118-121 | retry counts never decrease and equal the sum of the increments of all committed completions and failures |
| ProtocolRuns.RetryCountsAreBounded | app/services/openai_service.py:247-262 | every committed increment belongs to a run of its ticket that is past that commit; a ticket's retry count is at most 2 * maxAttempts for each of its runs; unless an agent set its status it is at most 2 * maxAttempts - 1 for each and no run commits twice; otherwise a run commits at most a completion and then one failure that counts one |
| ProtocolExamples.OneRunCountsTwice | app/services/classification_service.py:68-74 | under all settings some run of the system, with one delivery of one task and one status edit, ends with a retry count of 2 * maxAttempts |
| ProtocolRuns.RetryCountGrowsStep | app/services/classification_service.py:68 | no step of anybody removes a row or lowers its retry count |
| ProtocolRuns.TasksStayInBudget | app/tasks/classification.py:55-73 | without redelivery, all retries of one task together make at most (maxRetries + 1) * 2 * maxAttempts provider calls, those of classifications cut short by a fault included |
| ProtocolRuns.WorkersTerminate | app/tasks/classification.py:39-73 | in every behaviour workers take at most 11 * maxRetries + 10 steps per delivery |
| ProtocolRuns.InvariantStep | app/services/classification_service.py:39-138 | every step of workers, broker, intake and agents keeps the conjunction of all invariants |
| ProtocolRuns.InvariantAlways | app/services/classification_service.py:39-138 | the conjunction of the invariants holds in every reachable state |
| ProtocolSteps.RetriesAreRecordedExactly | app/services/classification_service.py:118-122 | in every reachable state, the step that records a failure sets PENDING and commits if and only if the ticket is not complete, the Celery task has retries left and the error is a database, connection or timeout fault or a broken provider connection; the count grows by the calls of the run less one if both models were exhausted, and by one otherwise |
| ProtocolSteps.FinalFailuresAreRecordedExactly | app/services/classification_service.py:118-138 | the step that commits a final failure, only for errors or deliveries that are not retried, sets FAILED, adds exactly those counts, and adds one letter with the larger of retries and new count, unless the task has a letter |
| ProtocolSteps.DecisionsAreExact | app/tasks/classification.py:68-93 | a run that has recorded its failure queues its next delivery, with one retry more, if and only if the Celery task has retries left and its error is one of those four; otherwise it ends with its error |
| ProtocolSteps.EntriesCountCalls | app/services/classification_service.py:68-121 | in every behaviour, each committed completion and each recorded exhaustion counts the provider calls of its own run less one, and any other recorded failure counts one |
| ProtocolSteps.ClassifyingHandsOnTheAnswer | app/services/openai_service.py:48-153 | if transient faults precede an answer, classifying leaves the run with that result, its attempts and its calls numbered by the answer |
| ProtocolSteps.ClassifyingHandsOnTheFault | app/services/classification_service.py:48-50 | any other fault is what the run then records, after its number of calls; transient faults throughout become the exhaustion of both models |
| ProtocolSteps.LocalResultsAreFree | app/services/local_classifier.py:22-37 | a local classification is one attempt without tokens or cost under its own model name |
| ProtocolSteps.LocksLoadTheRow | app/repositories/tickets.py:36-40 | a granted lock belongs to the run that asked, which copies the committed row and carries its result or error on |
| ProtocolSteps.TransactionsEnd | app/services/classification_service.py:53-74 | a claim goes on to classify, and a result is committed and read back, unless the locked row is complete; a recorded failure goes on to the decision; each releases the lock, and the ledger gains exactly what was committed |
| ProtocolSteps.RecordingGoesOn | app/services/classification_service.py:114-127 | recording searches for a letter of the task if the failure is final and the ticket not complete, and otherwise goes on to the decision; the error stays |
| ProtocolSteps.FaultsAreRecorded | app/tasks/classification.py:133-152 | a fault becomes the error to record, rolls back and releases the lock; a fault while an error is being recorded is swallowed, and that error stays; provider calls cut short are counted |
| ProtocolSteps.LocksAreGrantedIff | app/repositories/tickets.py:36-40 | runs and edits are granted the lock of a row if and only if no run and no edit has a transaction open on it |
| ProtocolSteps.AnythingMayFail | app/tasks/classification.py:39-45 | in every state any delivery of a Celery task may be repeated, any unfinished run may die, and any that has not recorded its failure may meet any fault |
| ProtocolSteps.RecordsAreExact | app/services/classification_service.py:123-138 | in every behaviour the history fields that other results are conditioned on hold exactly the tickets whose status or classification an edit set, those whose final failure was lost, and the tasks delivered again |
| ProtocolSteps.RepeatedDeliveriesAreTheSame | app/tasks/classification.py:43-44 | a task whose worker dies, or that the broker delivers again, is queued once more with its own ticket and count of retries; of a run that dies the calls are counted, and no other run changes |
| ProtocolSteps.DispatchQueuesOneRun | app/tasks/classification.py:99-105 | a published task, or a request that classifies its ticket, starts as one queued run without retries, under a task id that was not used before |
| ProtocolSteps.IntakeInsertsOneRow | app/services/ticket_service.py:65-70 | intake inserts one pending row without classification, agent or counts, under a new id |
| ProtocolSteps.OtherStepsChangeNothing | app/services/classification_service.py:114-138 | no step but the commits, edits and intake changes a row or a letter |
| ProtocolSafety.LockDisciplineStep | app/repositories/tickets.py:36-40 | a row lock has exactly one owner, and while it is held the owner's copy is the committed row up to its own changes |
| ProtocolSafety.InsertKeepsLetters | app/services/classification_service.py:123-137 | inserting after an earlier search keeps one letter per task, because nobody else can have inserted one meanwhile |
| ProtocolSafety.LettersStep | app/models/dead_letter.py:29-32 | every step keeps: one letter per task id, each naming the task's ticket, and a finished search for a letter stays right while its transaction is open |
| ProtocolHistory.HistoryStep | app/services/classification_service.py:60-70 | every step keeps: retry counts are sums of increments, statuses match the completions and letters on record, columns come from the latest completion up to corrections |
| ProtocolBudgets.BudgetsStep | app/services/openai_service.py:265-272 | every step keeps: a result counts the calls of its run, an exhaustion counts all calls of both budgets, no run makes more calls than both allow, and no other error of the engine is retryable, one model's exhaustion or the end of its loop |
| ProtocolBudgets.OnlyConnectionFaultsAreRetried | app/tasks/classification.py:134-137 | a retried run ended with a database, connection or timeout fault, never with provider exhaustion |
| ProtocolLedger.RunEntriesStep | app/services/classification_service.py:118-138 | every step keeps: each committed increment belongs to a run of its ticket that is past that commit, and counts that run's calls if it is a result or an exhaustion; no run has two, except a failure counting one after a completion of a ticket whose status an agent set |
| ProtocolBudgets.RetryChainsStep | app/tasks/classification.py:68-73 | the deliveries of a task that is never redelivered form one chain of at most maxRetries + 1 runs, of which only the last is not a retried one |
| ProtocolLedger.RetryCountBound | app/services/classification_service.py:118-121 | a retry count is at most 2 * maxAttempts, and without status edits 2 * maxAttempts - 1, for each of the ticket's runs that got as far as a result or a failure |
| ProtocolLedger.SpentAddsUp | app/services/classification_service.py:118-121 | a ticket's retry sum is the sum of what its runs committed, each entry counted for one run |
| ProtocolBudgets.ProviderCallsBound | app/tasks/classification.py:55-73 | the provider calls of all runs of one task are bounded by its retry chain |
| ProtocolLiveness.NobodyStrandedStep | app/tasks/classification.py:133-152 | every step keeps: a dispatched, undecided ticket has a run that will still decide it, unless its status was edited or its failure record was lost |
| ProtocolLiveness.AnnouncementsStep | app/tasks/classification.py:137-146 | every step keeps: what was recorded about a retry agrees with what the run then does |
| ProtocolLiveness.WorkDecreases | app/tasks/classification.py:55-73 | every worker step that is not a delivery uses up work, and every delivery adds a fixed amount at most |
| ProtocolLiveness.NoDeadlock | app/repositories/tickets.py:36-40 | for every unfinished run there is a step without fault or crash that can be taken now: its own, or one of the owner of the lock it waits for; a classifying run can take whatever the provider answers, and can do without a provider |
| Workflow.ClassificationService.ClaimTicket | app/services/classification_service.py:155-173 | claims a ticket that is not complete and returns its text; leaves a complete one alone; reports a missing one |
| Workflow.ClassificationService.Finalise | app/services/classification_service.py:51-70 | the second transaction is exactly the finalise function of the row it locks, and commits unless that row was complete; the returned row is the committed one and is complete |
| Workflow.ClassificationService.Process | app/services/classification_service.py:39-92 | with arbitrary sessions in between and a fault at any of its stages, reading the completed ticket back included: a complete ticket is returned unchanged, a missing one reported, otherwise the outcome is the fault or that of one scan of the provider script, finalised on the row as locked at the second transaction; no retryable engine error leaves |
| Workflow.ClassificationService.RecordFailure | app/services/classification_service.py:105-138 | row and letters change exactly by the failure transaction: PENDING or FAILED as told, the attempts of an exhausted engine but the first, or one for any other error, added to the count, and for a final failure one letter with the larger of retries and count unless the task has one; missing and complete tickets are left alone |
| Workflow.RunWorkflow | app/tasks/classification.py:128-132 | a workflow that returns leaves its ticket complete, with the returned columns; without a fault it fails exactly with the engine's error, or because the ticket is missing; unless the fault is itself an engine error, a failure costs 2 * maxAttempts - 1 if all outcomes are transient faults and one otherwise, and is retryable if and only if it is a database, connection or timeout fault or a broken provider connection |
| Workflow.ClassifyTicketTask | app/tasks/classification.py:46-93 | a delivery retries if and only if retries are left and its cause is a database, connection or timeout fault or a broken provider connection, with the capped countdown, and never for a ticket that does not exist; if the failure is persisted on a ticket that is not complete, the count grows by 2 * maxAttempts - 1 after transient faults throughout and by one after anything else, and the row is PENDING exactly when the delivery retries and FAILED, with a letter of its task, exactly when it raises |
| Workflow.CountdownsDouble | app/tasks/classification.py:69 | the waits before the retries are 10, 20, 40, 80 and 160 seconds, and five minutes from then on |
| Workflow.TicketService.Create | app/services/ticket_service.py:59-128 | support agents and they alone are refused, which changes nothing; otherwise the pending, unclassified ticket of the caller is committed and stays so when it cannot be published; a request that classifies it answers with a ticket that is complete, or failed with a dead letter under its own task id |
| Workflow.TicketService.ClassifyInRequest | app/services/ticket_service.py:72-106 | with arbitrary sessions in between and any fault, the request decides the ticket unless recording the failure fails too |
| Workflow.TicketService.UpdateStatus | app/services/ticket_service.py:174-237 | a missing ticket is reported first; then customers and internal callers are refused and change nothing, and support agents and administrators set any status, whatever it was, and nothing else |
| Workflow.TicketService.CorrectClassification | app/services/ticket_service.py:184-237 | a missing ticket is reported first; then customers and internal callers are refused and change nothing, and for support agents and administrators urgency, category, confidence and queue change together, the queue to what routing assigns |
| Workflow.TicketService.AssignAgent | app/services/ticket_service.py:204-218 | refused if and only if the caller is no administrator or the assignee is no active support agent; otherwise only the agent column changes, to the assignee |
| Access.WhoMayCreate | app/services/ticket_service.py:59-64 | everybody may create tickets but support agents |
| Access.WhoMayRead | app/services/ticket_service.py:220-230 | refused are exactly customers on tickets that are not theirs |
| Access.WhoMayEdit | app/services/ticket_service.py:232-237 | support agents and administrators may edit, customers and internal callers may not |
| Domain.QueuesByDepartment | app/services/routing_service.py:9-24 | critical tickets and they alone go to the emergency queue, every other ticket to the queue of its category |
| RetryEngine.AttemptModel | app/services/openai_service.py:155-217 | the loop with its exceptions ends as the scan over its own budget says, after that many calls and those sleeps |
| RetryEngine.ClassifyTicket | app/services/openai_service.py:48-153 | result or error, models called and sleeps of the nested budgets are those of one scan over 2 * maxAttempts outcomes |
| RetryEngine.NestedBudgetsAreOneScan | app/services/openai_service.py:56-98 | primary budget, fallback on exhaustion and added attempts amount to one scan |
| RetryEngine.FirstDecisiveOutcomeWins | app/services/openai_service.py:160-215 | the first outcome that is not a retryable failure is returned with its index plus one as attempt count, or raised as it is |
| RetryEngine.AllRetryableExhaustsBothModels | app/services/openai_service.py:247-262 | only retryable failures: both budgets are spent and the error counts 2 * maxAttempts attempts |
| RetryEngine.EngineErrorsAreFinal | app/services/openai_service.py:190-195 | no error that leaves the engine is retryable for it; the loop falls through exactly when no attempts are allowed; exhaustion of both models exactly when all outcomes were retryable |
| RetryEngine.TransientFaultsAreRetried | app/services/openai_service.py:160-217 | timeouts and the statuses 429, 500, 502, 503 and 504 are tried again until the first answer within both budgets, which is returned with the number of its call |
| RetryEngine.OtherFaultsAreRaised | app/services/openai_service.py:190-195 | the first fault of any other kind is raised at once, as it is, with no further call |
| RetryEngine.ExhaustionIff | app/services/openai_service.py:247-272 | both models fail for good if and only if all outcomes of both budgets are transient faults |
| RetryEngine.TransientFaultsExhaust | app/services/openai_service.py:247-262 | transient faults throughout spend both budgets; the error names the fallback model and counts all calls |
| RetryEngine.WaitsAskedFor | app/services/openai_service.py:288-312 | milliseconds come first, then seconds or a date; nothing in the past, and nothing from unreadable headers or faults without headers |
| RetryEngine.DelaysAreExactly | app/services/openai_service.py:219-231 | the delays that some random draw gives after the k-th failed attempt are exactly those from the wait asked for, up to its ceiling, to the larger of that and min(ceiling, base * 2^(k - 1)) |
| RetryEngine.AnswersAreAccounted | app/services/openai_service.py:100-123 | for every deciding answer: the result names the model that the provider reports, or else the one whose budget was running; it carries the reported token total, or input plus output; and its cost is, to half a quantum, the price of the reported usage, negative counts read as none, at that model's rates |
| RetryEngine.CallsArePrimaryThenFallback | app/services/openai_service.py:56-81 | the calls are primary models, then fallback models, and fallback only after the whole primary budget |
| RetryEngine.SleepCount | app/services/openai_service.py:197-213 | sleeps number the calls minus the models tried |
| RetryEngine.SleepBounds | app/services/openai_service.py:219-231 | every sleep of a classification follows a retryable failure, is at most the larger ceiling, and at least a given Retry-After up to its ceiling |
| RetryEngine.TotalBackoffBound | app/services/openai_service.py:219-227 | without Retry-After, n sleeps of one model last at most n times the backoff ceiling and at most base * (2^n - 1) seconds |
| RetryEngine.DoubledIsProduct | app/services/openai_service.py:220-223 | the doubled base of the model is the base times the power of two that the code computes |
| Pricing.EstimateWithinHalfQuantum | app/ai/pricing.py:47-55 | an estimate is a whole number of quanta of 1e-8 dollars, within half of one of the exact cost of the clamped counts, ties rounded up |
| Pricing.UnitPrices | app/ai/pricing.py:47-54 | a million uncached, cached or output tokens cost their own rate |
| Pricing.CountsAreClamped | app/ai/pricing.py:47-53 | negative counts cost what none cost, and cached tokens beyond the input what the input costs |
| Pricing.RatesByRole | app/ai/pricing.py:19-34 | the fallback model and its dated snapshots have the fallback rates, every other model the primary rates |
| Pricing.SumOfEstimatesBound | app/ai/pricing.py:47-55 | the sum of n estimates differs from the estimate of the total by at most (n + 1) / 2 quanta |
| Pricing.WholeCentRatesAreExact | app/ai/pricing.py:50-55 | rates in whole cents lose nothing to rounding |
| Pricing.WholeCentEstimatesAdd | app/ai/pricing.py:50-55 | with rates in whole cents estimates add up exactly |
| Pricing.CachingNeverCostsIff | app/ai/pricing.py:47-53 | more cached tokens never raise the estimate, for all counts, if and only if the cached rate is at most the input rate |
| CachedReads.CachedReadsAreDirectReads | app/services/ticket_service.py:150-162 | a cached answer was read at some earlier step, and is the committed row as long as no edit changed the ticket since that step |
| CachedReads.EditsLeaveStaleEntries | app/services/ticket_service.py:174-202 | every edit that changes a ticket while a live entry holds its row leaves the cache answering something else than the row |
| CachedReads.EditsOvertakeReaders | app/services/ticket_service.py:156-161 | every edit that changes a ticket between the query and the write of a read leaves the cache answering the old row once the read stores it |
| CachedReads.CachedValuesAreRecent | app/services/cache_service.py:37-43 | any cached answer is the committed complete row that one earlier read copied, stored by that same read less than one time to live ago |
| CachedReads.StoredRowsAreAnswered | app/services/cache_service.py:37-43 | a row stored for a ticket is answered for exactly its time to live unless it is evicted, which leaves other tickets alone |
| CachedReads.CachedValuesAreBounded | app/services/cache_service.py:37-43 | if every read stores within d seconds, any cached answer was the committed complete row less than a time to live plus d seconds ago |
| CachedReads.QuietMeansAgreement | app/services/cache_service.py:19-48 | with reads that store within d seconds, a ticket that no edit changed for a time to live plus d is answered as by a direct read |
| CachedReads.AgreesAfterIff | app/services/cache_service.py:37-43 | for all runs whose reads store within d seconds: tickets unchanged for g seconds are always answered as by a direct read, if and only if g is at least the time to live plus d |
| CachedReads.StaleRun | app/services/ticket_service.py:150-182 | a run of the whole system that ends with a stale answer as long after the last edit as the time to live and the delay allow |
| CachedReads.GetTicket | app/services/ticket_service.py:150-162 | as long as live entries are the committed rows, every caller gets the answer of a read without cache, errors included, and that agreement is kept; customers and agents never touch the cache; administrators and internal callers are answered from a live entry whatever the row, and otherwise store exactly a complete row |
| CachedReads.WhoReadsWhat | app/services/ticket_service.py:156-159 | a missing ticket is reported to everybody, and of existing ones customers are refused those of others |
| RateLimit.Limiter.Dispatch | app/api/rate_limit.py:26-89 | decision and store are those of the specification of one request: without a reply the request passes if the limiter fails open and is answered 503 if not, with one it is admitted or answered 429, and without a transaction no counter changes |
| RateLimit.CountersAreExact | app/api/rate_limit.py:36-45 | with at most a second between clock and transaction, every window's counter is the exact number of its requests and outlives the last that can arrive |
| RateLimit.FirstRequestsAreAdmitted | app/api/rate_limit.py:53-74 | a request is admitted exactly when it is among the first N of its client and window |
| RateLimit.AdmittedPerWindow | app/api/rate_limit.py:36-70 | per client and window the counter admits at most N requests, and exactly the smaller of N and the number of requests when no reply is lost |
| RateLimit.AtMostTwiceTheLimit | app/api/rate_limit.py:36-70 | in any interval of one window's length the counter admits at most 2 * N requests of a client |
| RateLimit.PassedWithinLimits | app/api/rate_limit.py:46-84 | both bounds hold for everything that passes when the limiter fails closed or Redis answers every time |
| RateLimit.PassLimitHoldsIff | app/api/rate_limit.py:76-89 | at most N requests of a client pass per window in all runs, whatever fails, if and only if the limiter fails closed |
| RateLimit.LimitHoldsIff | app/api/rate_limit.py:36-59 | for every bound on the delay between clock and transaction, the counter admits at most the limit for all limits, runs and windows if and only if the bound is at most one second |
| RateLimit.LateRequestsExceed | app/api/rate_limit.py:44 | for every longer delay and every window, two requests that both pass a limit of one |
| Base64Url.RoundTrip | app/core/security.py:64-69 | decoding undoes encoding for every byte sequence |
| Base64Url.PaddingIsRestored | app/core/security.py:68-69 | an encoding's length is never 1 modulo 4, and the decoder appends exactly the padding that was stripped |
| Base64Url.B64IsText | app/core/security.py:64-65 | stripping removes exactly the padding, and what is left is over the 64 URL-safe characters |
| Base64Url.SextetsHoldTheBytes | app/core/security.py:64-69 | regrouping bytes into six-bit groups loses nothing, for all lengths |
| Base64Url.CanonicalIff | app/core/security.py:64-69 | a text is the encoding of what it decodes to if and only if it is over the alphabet, of a possible length and without stray bits |
| Base64Url.SymbolsInOrder | app/core/security.py:64-65 | an encoding has n + ceil(n / 3) symbols, each the one of its sextet in A-Z, a-z, 0-9, -, _ |
| Base64Url.GroupBits | app/core/security.py:64-65 | every three bytes and the four sextets that they become are the same 24 bits |
| Base64Url.LastBits | app/core/security.py:64-65 | one or two bytes at the end become two or three sextets, filled with zero bits |
| Base64Url.DecodesIff | app/core/security.py:68-69 | text over the alphabet with padding at its end decodes if and only if at most two padding characters complete it, and then to the bytes of its sextets |
| Base64Url.OthersAreRefused | app/core/security.py:68-69 | text with any other character, or with padding in front of the end, decodes to nothing |
| Credentials.TokenRoundTrip | app/core/security.py:38-57 | a created token decodes under a secret to its subject and expiry if and only if that secret gives the same keyed hash of header, dot and payload and the time is before the expiry |
| Credentials.TokenLivesUntilExpiry | app/core/security.py:46-57 | with the same secret a token is good strictly before its expiry and for nothing from then on |
| Credentials.CreatedParts | app/core/security.py:38-43 | a created token is base64url of the compact header, of the claims sorted by key with the time of expiry, of issue, the token id and the subject, and of the keyed hash of the first two parts with the dot between them |
| Credentials.DecodesIff | app/core/security.py:46-57 | a text of three parts decodes to a subject and an expiry if and only if the third encodes the keyed hash of the first two with the dot between them, and the claims have that text subject and that integer expiry, later than now |
| Credentials.AcceptedIsSigned | app/core/security.py:48-51 | whatever text decodes is three parts, of which the third encodes the keyed hash of the other two |
| Credentials.ForgeryNeedsCollision | app/core/security.py:48-51 | any other header or payload in front of the signature of a signed token is accepted only if the keyed hash of two different texts is the same |
| Credentials.ReplacedPartsAreRefused | app/core/security.py:38-51 | if the keyed hash tells texts apart, a created token with its header or payload replaced and its signature kept decodes to nothing, at any time |
| Credentials.ThreeParts | app/core/security.py:43-48 | three parts of encoded text joined by dots split into exactly those parts |
| Credentials.ObjectRoundTrip | app/core/security.py:52-61 | printing a flat JSON object and parsing it gives back its members |
| Credentials.UuidRoundTrip | app/core/security.py:41-55 | printing and parsing an id gives back the id |
| Credentials.UuidShape | app/core/security.py:41 | an id prints as 36 characters, lower-case hexadecimal digits in order with hyphens after the 8th, 12th, 16th and 20th |
| Credentials.HexValues | app/core/security.py:55 | hexadecimal digits of either case are read by their place |
| Credentials.IntRoundTrip | app/core/security.py:18-26 | printing and parsing an integer gives back the integer |
| Credentials.RecordRoundTrip | app/core/security.py:15-26 | a password record parses back to its iteration count, salt and digest, for every password and salt |
| Credentials.RecordAccepts | app/core/security.py:21-29 | a record accepts exactly the passwords that derive its digest, so always its own |
| Credentials.RecordText | app/core/security.py:15-18 | a record is the scheme, 600000, the salt and the digest derived with that many iterations |
| Credentials.VerifiesIff | app/core/security.py:21-31 | of four fields a password is accepted if and only if the scheme is known, the count at least one, and the last field encodes what the password derives with that salt and count |
| LocalClassifier.FirstMaximum | app/services/local_classifier.py:105 | the first of the highest scores |
| LocalClassifier.CategoryIsFirstMaximum | app/services/local_classifier.py:99-106 | GENERAL exactly when no term is found; otherwise the highest score, ties going to the earlier of billing, technical, bug, account |
| LocalClassifier.ScoresCountTerms | app/services/local_classifier.py:41-104 | the score of a category is the number of its own terms that are found in the text |
| LocalClassifier.WholeWordIff | app/services/local_classifier.py:101 | a term that starts and ends with a letter or digit, as all terms do, is found if and only if it occurs where neither neighbour belongs to a word |
| LocalClassifier.TermsAreWords | app/services/local_classifier.py:41-98 | every term of every category starts and ends with a letter or digit |
| LocalClassifier.JoiningKeepsScores | app/services/local_classifier.py:19-104 | joining title and description with a space never lowers a category's score in either |
| LocalClassifier.FoundInJoinedText | app/services/local_classifier.py:101 | a term found as a word in one text is found in the joined text |
| LocalClassifier.GeneralMeansNothingFound | app/services/local_classifier.py:19-106 | a ticket is GENERAL only if neither of its texts matches anything on its own |
| LocalClassifier.UrgencyIsHighestSignalled | app/services/local_classifier.py:109-125 | the urgency is the highest of which a phrase occurs in the text, LOW when none does |
| LocalClassifier.ExtendingKeepsUrgency | app/services/local_classifier.py:109-125 | text added before or after never lowers the urgency |
| LocalClassifier.UrgencyOfTicket | app/services/local_classifier.py:19-28 | the urgency is the highest that the title, the description or both joined by a space signal, with confidence 0.6 |
| LocalClassifier.CategoryOfTicket | app/services/local_classifier.py:19-28 | the category is the first with the highest score of title and description joined by a space, GENERAL if all scores are zero |
| Listing.ListedIffReadable | app/services/ticket_service.py:164-172 | for every caller, listing selects exactly the tickets that reading them one by one would authorise |
| Listing.PagesTileIff | app/repositories/tickets.py:42-63 | however the database breaks ties, pages of one size put together hold every selected ticket once and in order, if and only if no page boundary falls inside a group of ties |
| Listing.UnfilteredPagesTile | app/repositories/tickets.py:42-50 | sorted by creation and id, pages of every size tile the table |
| Listing.CustomerPagesTileIff | app/repositories/tickets.py:52-63 | a customer's pages of every size tile if and only if no two of the customer's tickets share their creation time |
| Listing.TwoTiedTicketsMayRepeat | app/repositories/tickets.py:60-63 | two tickets of one instant: pages of size one may show one of them twice and never the other |
| Listing.PageShape | app/repositories/tickets.py:42-63 | a page is a sorted part of the selection without repeats, as long as limit and total allow |
| Listing.NewestFirst | app/repositories/tickets.py:42-63 | no ticket on a page is older than a later one, and where everybody's tickets are listed those of one instant come by falling id |
| Listing.ListingExists | app/repositories/tickets.py:42-50 | every query has an answer |

## Left out

- Listing.TwoTiedTicketsMayRepeat: is an example; the exact condition is in Listing.PagesTileIff.
- Workflow.TicketService.Create: the session that a database fault left behind is usable again, as if it had been rolled back, when the request records the failure.
- Workflow.RunWorkflow: a fault within a transaction rolls it back before anything is committed; in the protocol it may strike between any two steps of a run that has not recorded its failure.
- Workflow.Database: what other sessions do between two transactions is arbitrary, except that tickets are never deleted.
- RetryEngine.TotalBackoffBound: leaves out waits that a Retry-After header prolongs, which have no bound but their ceiling; RetryEngine.SleepBounds covers them one by one.
- Credentials.ObjectRoundTrip: covers flat objects of texts without quotes, escapes or control characters and of integers, which is what tokens hold; the parser refuses everything else that json.loads takes.
- Credentials.TokenRoundTrip: tokens and secrets are bytes of ASCII text; UTF-8 beyond ASCII is not modelled, nor are number or text claims of other types than created tokens hold.
- CachedReads.AgreesAfterIff: the clock ticks in whole units, and an entry is gone the moment its time to live is over.
- Base64Url.CanonicalIff: text that Python's lenient decoder accepts by dropping characters outside the alphabet decodes to nothing here.
- RateLimit.CountersAreExact: clients are numbers, so equal digests of different addresses cannot occur; exempt paths, the disabled limiter and response headers are left out.
- LocalClassifier.CategoryIsFirstMaximum: works on lower-cased text, and which other characters belong to words is a parameter.
- SQLAlchemy's identity map and expiry: a locked read is a read of the committed row.
- A commit that takes effect although the client sees it fail, reading an edited ticket back after its commit, and failures of publishing a retry or the dead-letter notification.
- A provider adapter that itself raises the engine's exhaustion errors, and Retry-After values that are infinite or not numbers.
- Decimal contexts and the conversions between floats and decimals; the measured processing time is an input.
- Batch creation (app/services/ticket_service.py:130-149) commits and publishes many tickets at once. It checks no role: a support agent, whom `Workflow.TicketService.Create` refuses, may create tickets in batches.
- Prompts, response parsing, HTTP endpoints, logging, metrics, health checks, settings loading, migrations, frontend and deployment.
- The migration that sets queues on unclassified rows, which the routing invariant does not cover.
