# Verified models of the evaluation platform

The platform evaluates LLM answers: an API takes single evaluations and batch jobs, a worker runs the batches, Redis
holds rate-limit counters and job state, and a set of services turns metric scores into composites, regressions and
gate verdicts. This project models its stateful protocols and its scoring arithmetic and proves what they keep.

| part | modules |
|---|---|
| Batch jobs: API, worker, database row and Redis as one protocol at the grain of commits and Redis commands; the worker task and the API handlers as methods proved to be runs of it | `Jobs`, `JobRow`, `JobAccounting`, `JobLifecycle`, `JobCancellation`, `JobFinality`, `JobRetries`, `JobRedelivery`, `JobWorker`, `JobApi` |
| The Redis rate limiter under any interleaving of SET NX EX, INCR, TTL, EXPIRE, expiry and crashes; the handler as a method proved to be a run of it | `RateLimiter`, `CounterLifetimes`, `RedisCounters` |
| Evaluation slots: the double-checked semaphore and its acquire/release under any thread interleaving; `run_evaluation` as a method proved to be a run of it | `EvaluationSlots`, `EvaluationService` |
| Composite scores, the built-in profiles, regression detection, quality gates | `Rounding`, `Composite`, `CompositeLaws`, `Profiles`, `Regression`, `QualityGate` |
| API keys: creation, rotation, revocation, authentication with throttled bookkeeping; each handler as a method proved to be a run of their interleaving | `ApiKeys`, `KeyLifecycle` |
| Sentence splitting and the three evaluators that count supported sentences | `Sentences`, `Support` |

Each protocol is a state, an `Enabled` predicate and a `Next` function; `CanRun` and `Run` follow any list of actions,
and a theorem about all runs is a lemma about all such lists. Mutable code is a method on a class or a loop on local
variables, proved against functions of the old state. Wherever the program reads a clock, an id generator, a model or
a store that may fail, the value is a parameter or a nondeterministic action. Scores are exact reals, `round` is
half-even on them. A database session writes, as the ORM does, only the columns whose value differs from the one it
loaded. Check the whole project with `dafny verify dfyconfig.toml`.

## Where the code and its documentation differ

The model follows the code. Each difference is a lemma or method with the exact condition or a concrete run:

- `README.md:200` and `app/api/routes/jobs.py:97` promise cancelling queued and running jobs. A cancel that lands before
  the worker writes RUNNING is overwritten and the job completes (`JobApi.CancelledWhileQueued`,
  `JobCancellation.QueuedCancelIsLost`); one that lands while it runs is forgotten when an exception makes the queue retry
  the job (`JobRedelivery.RetryForgetsCancel`). `JobRedelivery.CancelCanBeOutrunIff` says exactly when a signalled cancel
  can still be followed by a completed job, `JobCancellation.DeliveryOutrunsCancelIff` when by the delivery it met.
- The cancel route leaves the row `failed`, not `cancelled` (`app/services/job_service.py:117`), and a completed row is
  not always final: the late `queued` write of the submission reopens it (`JobFinality.CompletedIsReopened`), and a
  cancel between the last commit and the last Redis write marks it failed (`JobFinality.CompletedCanBeOverwritten`).
  `JobFinality.CompletedIsFinalIff` says exactly when it is final.
- A retry starts at item 0 and earlier runs stay stored, so a completed job may have stored more runs than its batch
  names: `JobRetries.RetryDuplicatesRuns` gives a run for every batch. A batch always names all stored runs exactly when
  jobs are not retried (`JobRetries.BatchNamesAllRunsIff`).
- The row's completed and failed counters may add up to more than the total: a cancel commits only the columns its
  overlay changed, and can so mix counters of two deliveries (`JobRetries.CountersMix`). They always add up exactly when
  jobs are not retried (`JobRetries.CountersAddUpIff`).
- `evaluator/composite.py:60` says that weight is redistributed proportionally; the factor is `1/(1-W)` and not `1/W`
  (`CompositeLaws.RedistributionLaw`). As no evaluator emits `hallucination_fraction_unsupported`, every error-free run
  of a weighted profile is scored this way, and scores 1.0 exactly when its weighted sum reaches 0.99995 of that metric's
  weight: for `rag` 0.1499925 of a possible 0.85 (`Profiles.ProfileSaturatesIff`).
- `improvements` also lists worsenings within tolerance (`Regression.ListedImprovementIff`).

## Model

| member | source | states |
|---|---|---|
| RateLimiter.WindowBound | app/api/deps.py:36-71 | for any number of processes and any interleaving, with crashes and lost expiries, at most twice the limit less one is admitted for one key in any interval no longer than the window (none for a limit below one); Redis serves a key through the millisecond of its deadline |
| RateLimiter.GenerationBudget | app/api/deps.py:56-71 | within one lifetime of a counter the k-th deciding command sees count k, is admitted iff k is at most the limit, and n of them admit min(n, limit) |
| RateLimiter.TwoGenerationsApart | app/api/deps.py:56-69 | commands of two counters of a key with a third between them lie more than a window apart |
| RateLimiter.TwoGenerations | app/api/deps.py:56-69 | an interval no longer than the window meets at most two consecutive counters of a key |
| CounterLifetimes.AnswersLeaveMortalCounters | app/api/deps.py:60-69 | unless expiries are lost, an answered request has left its counter with an expiry |
| CounterLifetimes.NoImmortalCounters | app/api/deps.py:66-69 | a counter without expiry means that the request that created it is between its INCR and its EXPIRE, or crashed between the two |
| CounterLifetimes.ImmortalCounters | app/api/deps.py:60-69 | both exceptions arise: a run in which an INCR after expiry creates a counter without expiry and its request dies, and one in which an expiry is lost |
| CounterLifetimes.DeadlinesNeverShorten | app/api/deps.py:56-69 | no command shortens a live counter's deadline or lowers its count, and only an outside loss removes a deadline |
| CounterLifetimes.WindowBoundAttained | app/api/deps.py:36-71 | for every limit and window some run admits twice the limit less one, the bound, and does so within two milliseconds |
| RedisCounters.WindowMillis | app/api/deps.py:58 | the window is the given seconds truncated, and at least one second |
| RedisCounters.CounterStore.CheckRateLimit | app/api/deps.py:56-71 | the handler counts one more on a live counter or starts at 1, answers by the limit, leaves the key with an expiry and other keys alone, and is one run of the protocol |
| JobAccounting.ExactAccounting | app/worker.py:67-129 | under any schedule of crashes, failures, retries and cancels each delivery stored exactly the runs its last committed counter says, and together they are all the job's runs, with distinct ids |
| JobAccounting.ViewsAreCommittedPairs | app/services/job_service.py:44-61 | Redis progress and every view overlaid with it show a pair some item commit produced, so completed + failed never exceeds the total; the row, and views of it, show for each counter a value some commit produced, and add up as long as there was one delivery |
| JobAccounting.EntriesNameDistinctRuns | app/worker.py:113 | two entries of one delivery name different stored runs |
| JobAccounting.StoredBatchIsComplete | app/worker.py:70-135 | a stored batch has one entry per item in order, counts that match their statuses, failed entries with their own index and completed ones with distinct stored runs of that delivery; a COMPLETED row has a batch |
| JobRetries.BatchNamesAllRunsIff | app/worker.py:67-72 | in every run a stored batch names all runs stored for its job, exactly when jobs are not retried or have no items |
| JobLifecycle.StepUsesPotential | app/worker.py:47-167 | every worker step lowers a measure on tries and items left that no other step raises |
| JobLifecycle.LifecycleIsBounded | app/worker.py:162-167 | with redelivery only after a re-raise: at most max(1, max_retries) deliveries, that many times total item evaluations, and 9 + 4 * total worker steps per delivery |
| JobLifecycle.RedeliveryIsIdempotent | app/worker.py:53-59 | a whole delivery that loads a COMPLETED or CANCELLED row leaves row, runs, Redis and requests as if it had not been made, whatever happens between its arrival and the load |
| JobFinality.CompletedIsFinalIff | app/services/redis_queue.py:57-60 | in every reachable state a completed row can still change without a new exception exactly when `queued` is still to be written, Redis holds a non-terminal state, an exception handler is about to write, or a cancel past its check has not loaded `failed` or has overlaid a counter that is neither the one it loaded nor the row's |
| JobFinality.CompletedIsFinalIffQueued | app/worker.py:131-167 | with exceptions, and only the deliveries the queue makes, it can change exactly in those cases or while a delivery is at work or due |
| JobFinality.SettledForever | app/worker.py:47-59 | otherwise row and stored runs never change again under deliveries, crashes, cancels and expiries |
| JobFinality.EndedJobIsNotCancelled | app/api/routes/jobs.py:102-111 | once a delivery has recorded completed, failed or cancelled in both stores, no cancel request that starts later gets past its check, and both stores stay at one of the three, in every continuation the queue allows |
| JobFinality.CompletedIsReopened | app/services/redis_queue.py:60 | for every batch a run from the start in which both stores say completed and the late `queued` write lets a cancel mark the row failed |
| JobLifecycle.CancelRequest | app/api/routes/jobs.py:98-115 | a cancel request that meets a non-terminal Redis state leaves Redis `cancelled`, the row `failed` with its batch as it was, and the worker and runs alone |
| JobFinality.CompletedCanBeOverwritten | app/worker.py:135-136 | for every batch a run from the start, submission finished, in which a cancel between the two last writes leaves a row `failed` with a full batch beside Redis `completed` |
| JobRow.OtherStatusWritesGoThrough | app/worker.py:57-65 | a session past the skip checks has not loaded `completed` or `cancelled`, and one that loaded `failed` works on a failed row, so only the RUNNING write can be skipped as unchanged |
| JobFinality.RunningWriteCanBeSkipped | app/worker.py:61-65 | a run in which a delivery that loaded `running` leaves a row failed that a cancel failed meanwhile, and goes on |
| JobRow.ItemCommitWrites | app/worker.py:111-126 | a failed item rolls back and its commit writes both counters, whatever else has been committed meanwhile; an evaluated one leaves alone a counter that its session loaded with the same value |
| JobRetries.RetryDuplicatesRuns | app/worker.py:67-72 | for every batch and retry limit above one a run in which item 0 is stored twice and the completed batch names one of the two |
| JobRetries.CountersMix | app/api/routes/jobs.py:98-115 | for every batch and retry limit above one a run that leaves the row with all items failed and one completed |
| JobRetries.CountersAddUpIff | app/services/job_service.py:57-60 | the row's counters add up to at most the total in every run exactly when jobs are not retried, or have no items |
| JobCancellation.BoundedCancellation | app/worker.py:81-136 | once the cancel SET lands after the RUNNING write, that delivery commits at most one more item and ends CANCELLED, or COMPLETED only past its last poll, or by an exception or crash |
| JobCancellation.FinishDelivery | app/worker.py:61-136 | a delivery that Redis will not stop can run to COMPLETED, in both stores |
| JobCancellation.DeliveryOutrunsCancelIff | app/services/redis_queue.py:57-60 | after a signalled cancel the delivery at work, or the next one the queue makes, can complete exactly when it is due or loading and will not skip the row, or has not written RUNNING, or is past its last poll, or `queued` is still to be written |
| JobRedelivery.CancelCanBeOutrunIff | app/worker.py:152-164 | over all deliveries the queue makes, a signalled cancel can be followed by a completed job exactly in those cases or when an exception in that delivery would be re-raised |
| JobRedelivery.RetryForgetsCancel | app/worker.py:152-164 | for every batch and retry limit above one a run in which a cancel lands at the first poll, submission finished, an exception makes the queue retry, and both stores end completed |
| JobCancellation.QueuedCancelIsLost | app/worker.py:47-65 | whenever a first delivery or a retry is due, or at work without having written RUNNING, a signalled cancel can be followed by a completed job, the queue making no extra delivery |
| JobWorker.JobStore.ProcessEvaluationJob | app/worker.py:34-170 | the whole task: outcome, row, runs and Redis after it for every combination of item results, a cancel signal at any item, an exception in any one Redis call and another in the handler's; it is a run of the protocol |
| JobWorker.JobStore.RunLoop | app/worker.py:81-129 | the loop commits exactly the items before the signal or the fault, stops with the matching outcome, and goes on to the last writes otherwise |
| JobWorker.JobStore.ProcessItem | app/worker.py:91-126 | an evaluated item commits its run together with the counters; a failed one commits counters only |
| JobWorker.JobStore.Poll | app/worker.py:83-89 | the poll stops the delivery exactly when Redis says cancelled, whatever else it may say; if its own write of that raises, as failed |
| JobWorker.JobStore.Begin | app/worker.py:47-65 | the skip checks change nothing; otherwise both stores say running, or failed when the write of RUNNING raises |
| JobWorker.JobStore.HandleException | app/worker.py:149-167 | from any phase: the row says failed, and Redis too unless its write raises; re-raised below the retry limit, otherwise reported |
| JobWorker.ItemsCommitted | app/worker.py:81-129 | the number of items a delivery commits is the least of the batch, the items before the signal and the items up to the fault |
| JobApi.SubmitJob | app/services/redis_queue.py:44-60 | creating and dispatching reach the protocol state with a queued row, zero counts and Redis `queued`, or with Redis silent if that write raises |
| JobApi.GetJob | app/services/job_service.py:44-61 | a view shows the row overlaid with what Redis has, field by field, and changes nothing |
| JobApi.MarkForCancellation | app/services/redis_queue.py:117-133 | writes `cancelled` exactly over `queued` and `running` |
| JobApi.CancelJob | app/api/routes/jobs.py:91-126 | a view that says completed, failed or cancelled is answered with just that; otherwise accepted exactly when Redis says queued or running; then row `failed` with the view's counts and Redis `cancelled`, and the reply says so unless its own view misses Redis; a refused request changes nothing and is over |
| JobApi.CancelledWhileQueued | app/api/routes/jobs.py:97 | submit, cancel, deliver: the cancel is accepted and every item is evaluated and the job completed all the same |
| EvaluationSlots.SlotSafety | app/services/evaluation_service.py:43-108 | under every interleaving at most one semaphore is made and all use it, free permits + evaluations in progress = slots, no release overflows, and every ended thread gave back what it took |
| EvaluationSlots.RefusedOnlyWhenFull | app/services/evaluation_service.py:79-82 | a timeout can only strike while all slots are in use, and once all threads ended all slots are free |
| EvaluationSlots.NoDeadlock | app/services/evaluation_service.py:43-108 | every thread that has not ended can move, time out, or waits for a lock whose holder can move |
| EvaluationService.Service.GetEvalSemaphore | app/services/evaluation_service.py:43-50 | creates the semaphore once, with all slots free, and otherwise returns the existing one unchanged |
| EvaluationService.Service.RunEvaluation | app/services/evaluation_service.py:77-145 | refused exactly when no slot is free; slots are as before whether it returns or either part of it raises; only a returned evaluation is stored, with its profile's rows and composite; it is a run of the interleaving model |
| EvaluationService.Evaluate | app/services/evaluation_service.py:85-107 | what runs under the slot ends with the pipeline's exception, else the profile's unless it is basic, else a run with the profile's rows and composite |
| EvaluationService.EvaluateProfile | evaluator/registry.py:132-155 | no rows for a basic profile, one error row for an unknown one; for `rag`, `rag_strict` and `judge` their named rows, each telling what its evaluator did, and without errors the composite as the profile's weights give it, written out in the rows' scores |
| Rounding.HalfEvenIsNearest | evaluator/composite.py:65 | `round` gives the nearest integer multiple, ties to even |
| Composite.Accumulate | evaluator/composite.py:37-58 | the loop computes the weighted sum, the weight present, the missing names and the contributions of the usable results |
| Composite.ComputeComposite | evaluator/composite.py:11-72 | both error reports and the whole scored report, from the specification on finite sums |
| CompositeLaws.ReportExplains | evaluator/composite.py:41-58 | every weighted metric is shown or missing: shown with score, version, weight and product to four places from the last result of its name if that has no error, missing otherwise |
| CompositeLaws.ShownExplainsScore | evaluator/composite.py:46-65 | with nothing missing and no cap the contributions shown add up to the score, within half a unit of the fourth place for each and for the score |
| CompositeLaws.WeightsShown | evaluator/composite.py:71 | the weights shown are the given ones over their sum, to four places |
| CompositeLaws.CompositeInRange | evaluator/composite.py:27-65 | non-negative weights of positive sum and scores in [0,1] give a composite in [0,1] |
| CompositeLaws.ScalingWeightsChangesNothing | evaluator/composite.py:27-32 | multiplying all weights by a non-zero factor changes neither composite nor missing names |
| CompositeLaws.ReorderingResultsChangesNothing | evaluator/composite.py:35-58 | the order of distinctly named results does not matter |
| CompositeLaws.CompositeIsMonotone | evaluator/composite.py:37-65 | raising scores never lowers the composite, through redistribution and rounding |
| CompositeLaws.CompleteComposite | evaluator/composite.py:37-65 | with nothing missing it is the rounded weighted mean, between the rounded least and greatest weighted score |
| CompositeLaws.RedistributionLaw | evaluator/composite.py:60-65 | with present weight W in (0,1) the code's value, before and after rounding, is at least the proportional mean for W >= 1/2 and at most it for W <= 1/2; before rounding they are equal exactly when W = 1/2, the sum is 0, or every present score is 1 with W > 1/2 |
| CompositeLaws.NothingToRedistribute | evaluator/composite.py:60-65 | when the metrics present have all the weight, or none, the score is the plain weighted sum, capped and rounded |
| CompositeLaws.RedistributionIsNotProportional | evaluator/composite.py:60-65 | weights and scores for which the code gives 0.6 and the proportional mean is 0.2 |
| Profiles.RunEvaluators | evaluator/registry.py:70-129 | one result per requested name in order, then the judge's if asked for and not yet run: an evaluator's own score, version and error if it returned, score 0 and its message if it raised, score 0 and an error for an unknown name |
| Profiles.ScoreProfile | evaluator/composite.py:41-58 | in a run of a weighted profile a weighted metric is missing exactly when no evaluator emits it or its evaluator raised with a message or returned an error |
| Profiles.ProfileComposite | evaluator/profiles.py:29-100 | an error-free run of a weighted profile misses exactly `hallucination_fraction_unsupported`, and its composite is the weighted sum over that metric's weight, capped at 1 and rounded |
| Profiles.ProfileSaturatesIff | evaluator/profiles.py:42-49 | such a run scores 1.0 exactly when the weighted sum reaches 0.99995 of that weight |
| Regression.Classify | app/services/baseline_service.py:99-119 | a comparable metric lands in exactly one of regression, other change, unchanged; others are skipped |
| Regression.DetectRegressions | app/services/baseline_service.py:80-165 | regressions hold exactly the entries of a metric and source whose values both runs have and that got worse by more than the tolerance, improvements those of the other changes, each once; from a table only the last record of a name counts, if without error; larger is worse for hallucination, latency and cost |
| Regression.SwapExchangesVerdicts | app/services/baseline_service.py:97-154 | with non-negative tolerances swapping the runs gives disjoint regressions, the same changed and unchanged metrics, and negated changes |
| Regression.SelfComparisonIff | app/services/baseline_service.py:97-154 | a run regresses against itself exactly on metrics it has with a negative tolerance |
| Regression.TolerancesAddUp | app/services/baseline_service.py:103-105 | no regression within t1 and then within t2 gives none within t1 + t2 |
| Regression.ListedImprovementIff | app/services/baseline_service.py:116-119 | a metric is listed as improvement exactly when it improved or worsened by at most its tolerance |
| QualityGate.ExtractMetricValue | app/services/quality_gate_service.py:120-136 | direct value, then hallucination fraction, then the first error-free record of that name |
| QualityGate.EvaluateGate | app/services/quality_gate_service.py:78-117 | fails exactly when some thresholded metric has a value above its max (hallucination, latency, cost) or below its min, 0 by default (the eight others with a direction); a check per such metric, with its value and bound |
| QualityGate.GateValueIsCompared | app/services/quality_gate_service.py:120-136 | a run's gate value is one of the values regression detection compares |
| QualityGate.MarginImpliesPass | app/services/baseline_service.py:97-119 | if the baseline clears every bound by the metric's tolerance and nothing regressed, the current run passes the gate |
| QualityGate.MarginIsTight | app/services/quality_gate_service.py:95-110 | for every legacy metric, in its direction: whenever a baseline does not clear its bound by the tolerance, some run without regression fails the gate |
| QualityGate.CompareThenGate | app/services/quality_gate_service.py:78-117 | both services on the same runs: a regression is reported or the gate passes |
| ApiKeys.KeyTable.RotateApiKey | app/api/routes/auth.py:153-185 | first the replacement with the inherited expiry, then the old key disabled; nothing for an unknown key |
| ApiKeys.KeyTable.ProjectFromKey | app/api/deps.py:87-124 | finds a key of that hash iff one is enabled and has no expiry or one still to come, and writes its use only when the stored one is stale |
| ApiKeys.RotationExtendsByAtMostADay | app/api/routes/auth.py:165-171 | a non-expiring key stays so; a live key's replacement expires later by at most 24 hours and the clock gap; an expired key's gets 24 hours |
| ApiKeys.RotationChain | app/api/routes/auth.py:165-171 | n timely rotations move the expiry forward by at most n days plus the clock gaps |
| ApiKeys.NonExpiringChain | app/api/routes/auth.py:165-168 | rotations never give a non-expiring key an expiry |
| ApiKeys.UseKey | app/api/deps.py:109-121 | repeated lookups store exactly the time the throttle says, always less than an interval old, and touch nothing else |
| ApiKeys.ThrottleBound | app/api/deps.py:109-121 | writes are 60 seconds apart, so at most one more than the minutes in the span |
| KeyLifecycle.DisabledForever | app/api/routes/auth.py:188-195 | under any interleaving a key that is disabled, or whose expiry has come, can never be used again |
| KeyLifecycle.HashesStayUnique | app/api/deps.py:95-103 | no run gives two keys one hash, so a lookup is unambiguous |
| KeyLifecycle.LookUp | app/api/deps.py:87-124 | a lookup finds a key exactly when the protocol lets one of that hash be used, and is that step of it |
| KeyLifecycle.Rotate | app/api/routes/auth.py:153-185 | a rotation with nothing else committed meanwhile is a run of the protocol that ends with the old key disabled |
| KeyLifecycle.CreateKey | app/api/routes/auth.py:86-108 | creating a key is a step of the protocol |
| KeyLifecycle.RevokeKey | app/api/routes/auth.py:188-195 | revoking one is a step of the protocol, possible exactly for a key of that project |
| KeyLifecycle.RotationsNeverLockOut | app/api/routes/auth.py:153-185 | with any rotations interleaved or abandoned and no revocation, a project that had a key has an enabled one, its youngest |
| KeyLifecycle.RotationKeepsAccess | app/api/routes/auth.py:171-176 | from the first commit on, whatever is committed meanwhile, the replacement is active for at least a day (or for good), also when the second commit disables the old key, unless it is itself revoked or rotated |
| KeyLifecycle.RotationCommitsKeepAccess | app/api/routes/auth.py:172-176 | the first commit leaves an active replacement of the same project, the second disables only the old key |
| Sentences.JoinSplit | evaluator/hallucination.py:9-10 | joining the unstripped pieces rebuilds the text, and no piece holds a break |
| Sentences.NothingIsLost | evaluator/hallucination.py:9-10 | the sentences are, in order, the pieces between the breaks without the spaces around them, and a piece without a sentence is blank |
| Sentences.BlankText | evaluator/hallucination.py:9-10 | spaces, tabs and line ends alone give no sentence |
| Sentences.VisibleText | evaluator/hallucination.py:9-10 | a text of visible ASCII characters alone is one sentence |
| Sentences.SplitGivesSentences | evaluator/hallucination.py:9-10 | every sentence is non-empty, has no space at either end, and is free of ". " and newline |
| Sentences.SplitJoin | evaluator/hallucination.py:9-10 | splitting joined sentences gives them back |
| Sentences.ResplitIsIdentity | evaluator/hallucination.py:9-10 | for every text, joining its sentences and splitting again gives the same sentences |
| Support.InspectSentences | evaluator/hallucination.py:22-31 | a detail per sentence in order, a flag per unsupported one, supported + flags = sentences, or the first exception |
| Support.HallucinationReport | evaluator/hallucination.py:13-32 | the report has the model's answer for each sentence on premise, separator and sentence, a flag for each that is not entailed, and the rounded fraction of the others; or the first exception |
| Support.FlagIsThere | evaluator/hallucination.py:26-30 | every sentence that is not entailed has its flag, which says whether the model found a contradiction |
| Support.PremiseJoins | evaluator/hallucination.py:15 | the premise is the chunks' texts joined by single spaces |
| Support.EvaluateHallucination | evaluator/hallucination.py:39-53 | reports the verdict on the answer, with the report behind it |
| Support.EvaluateFaithfulness | evaluator/faithfulness.py:35-74 | reports the same verdict from its own loop; a claim per sentence with the model's label and rounded confidence, supported exactly under the two labels of entailment; the score is the rounded share of the supported claims |
| Support.EvaluateContextRecall | evaluator/context_recall.py:36-80 | the same on the reference answer, or on the answer when there is none |
| Support.EvaluateAll | evaluator/context_recall.py:40-41 | for every sample and oracle faithfulness and hallucination agree on score, pass flag and error, and so does context recall without a differing reference answer |
| Support.PassIff | evaluator/faithfulness.py:65-68 | the rounded threshold passes exactly from 9999/20000 of the sentences, so from half of them below 10000 sentences; the score is 1 exactly when all are supported below 20000 |

## Left out

- Models, embeddings, NLI inference, LLM providers and their output parsing: oracles or nondeterministic results.
- Routing, validation, middleware, logging, metrics, tracing, migrations, the dashboard and the CI script: plumbing.
- SQL construction, pagination and project filters: thin wrappers over the database.
- The queue library's own policy and timeouts: redelivery after a re-raise is an environment step, and a kill is a crash between any two steps; at most one delivery of a job is alive at a time, and in the theorems about the queue's deliveries one that died is not made again; a delivery for a missing row returns at once.
- Redis eviction, connection errors of the limiter and its fail-open or fail-closed policy, and overflow of 64-bit counters: assumed absent.
- Errors of the database inside a commit, after which the exception handler fails too: in the protocol a second exception, not in `JobWorker`.
- Timestamps and error texts on the job row and the extra fields of the Redis state: they decide nothing.
- `mark_job_started`, `mark_job_completed`, `enqueue_job`, `dequeue_job`: not used by the worker, a plain first-in-first-out list.
- Hashing and key generation: the hash of a new key is assumed to be new.
- IEEE floating-point error: exact reals with explicit rounding.
- Cost, latency, citation and precision evaluators: simple sums and comparisons.
- The evaluator cache and the judge's configuration fields: they do not change which results are produced.
- Versions in comparison entries and the baseline id in the report: copied through.
- EvaluationService.Service.RunEvaluation: one thread with no other moving meanwhile; interleavings are the subject of `EvaluationSlots`.
- JobWorker.JobStore.ProcessEvaluationJob: one signal per delivery, and one exception in a Redis call of the task and one in its handler; all other interleavings, exceptions and crashes are the subject of the protocol theorems.
- JobCancellation.BoundedCancellation: assumes that submission has finished and the state key does not expire, without which `JobCancellation.DeliveryOutrunsCancelIff` applies; about the delivery that the cancel meets, not its retries.
- JobRedelivery.CancelCanBeOutrunIff: assumes that the state key, and with it the cancel, does not expire (after 24 hours).
