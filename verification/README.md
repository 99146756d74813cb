# Verified model of the SHLD security control plane

This project models the parts of SHLD that decide something about a security finding, and proves what
they guarantee over every run of the system. `dafny verify dfyconfig.toml` checks all of it.

## What is modelled

**The verification lifecycle.** `Records.Db` is the database: findings, runs, validations, remediations,
routing decisions, engine executions, the append-only audit log, and the log of calls made to the job
queue. `Transitions`, `Remediations`, `Engines` and `Handlers` say, as functions on `Db`, what every
transaction, job handler and service does. `Stores`, `LifecycleTransactions` and `LifecycleHandlers` are the
same code in its own form: one mutable `Store`, whose methods write row by row, roll a transaction back when
something in it throws, and stop when a call throws. Each method is proved equal to its function, so that
`LifecycleHandlers.Act` ties the whole step relation to the store; the table lists only those methods whose
statement form adds something, that is loops, early returns and rollback.

An *execution* (`Handlers.IsExecution`) starts from the empty database and takes any number of steps: a
service call with any arguments, a clock tick, a cancellation, an exploratory mission, or any job that was
ever enqueued, run for the first or the hundredth time. Every step may stop after any of its committed
effects. What an engine reports, what the target authorization says, and the order in which the database
returns rows are arbitrary inputs. On executions the project proves that

- the audit log is a complete and legal history (`AuditTrail`, `Lawfulness`): every finding and every run has
  one unbroken chain of events along edges of its transition table that ends at the stored status, nothing
  written is ever taken back, timestamps match the history, and fingerprints and idempotency keys stay unique;
- a run is concluded once (`Dispositions`): one disposition event, and one receipt job and one set of
  completion webhooks at most, however often `finalizeRun` is called and wherever it stopped;
- `verified_fixed` has to be earned (`VerifiedFixes`), it can be earned with and without a confirmed exploit
  (`Walkthroughs`), and exactly how a fix verification ends, whatever else its run found (`FixOutcomes`,
  `Revalidations`);
- what each service accepts and each mission writes is stated outright, status by status (`Submissions`,
  `Missions`), and so is which finding is escalated (`ReviewRuns`);
- the disposition of a review is what its verdicts and skipped candidates say, whatever the order of its
  validation jobs (`ReviewRuns` for the jobs, `ReviewExecutions` for executions);
- repeated reviews neither lose nor duplicate findings (`Deduplication`).

**The in-memory job queue and the webhooks.** `JobQueues` says what each queue operation does; `InMemoryQueue`
is the object, with its drain loop; `QueueOrder`, `QueueAccounting` and `QueueTermination` prove the scheduling
order, the account of attempts, and that the drain loop ends, and `RetryOrder` what the log of a whole drain
looks like. A handler call is an arbitrary reply: an
outcome and a list of follow-up enqueues. `Webhooks` composes the queue with the delivery rows.

**Smaller cores.** `UrlScope` gives a meaning to the regular expressions that scope patterns are turned into and
compares it with the glob language; `AddressText` and `NetworkGuard` decode addresses and test CIDR blocks on
top of `Numerals`; `TenantLimiter` interleaves the two commands of an acquisition; `ChangeClassifier` proves the
classifier's loops against the set of categories and the log of hits. `Collections` holds the two facts about
sequences and sets that several modules need.

## Where the code differs from its comments

The model follows the code; these are theorems here or are built into the model.

- The comment on `finalizeRun` (src/orchestration/handlers/deps.ts:22-28) calls it idempotent for terminal runs.
  `awaiting_fix` is a disposition but not terminal, so a second call there throws. Neither call changes
  anything (`Dispositions.FinalizingAgainChangesNothing`), and `Walkthroughs.FinalizingCanThrow` is an execution
  in which it happens.
- `dismissed` and `accepted_risk` are said to be reachable from any non-terminal investigative state
  (src/domain/finding-state-machine.ts:17-18). The table has neither from `validation_queued`, no dismissal from
  `confirmed` and no accepted risk from `suspected` (`StateMachines.FindingEdgesBySource`).
- A `failed` Strix mission leaves its finding queued and, since the handler returns normally, by that schedule of
  jobs the run stays in `validation_running` (`ReviewExecutions.DispositionOfReview`, and
  `Walkthroughs.AReviewCanStall` for an execution); only running the same job again can conclude it.
- A fix whose verification failed operationally is said to be left at `retesting` for retry
  (src/remediation/complete-fix-verification.ts:27-30). Its run completes, and neither a new fix nor a new
  verification is possible from there (`FixOutcomes.RetestConcludes`, `FixOutcomes.RetestingIsStuck`);
  `Walkthroughs.AFixCanBeStuck` is an execution that ends so.
- A fix run is said to resolve to `awaiting_fix` if the fix is partial or inconclusive, and to `failed` on an
  operational error (src/domain/run-state-machine.ts:22-25). The code leaves both to the other findings of the
  run, and without any the run ends `completed`. So a replay that reproduces the exploit blocks its run only
  if the source check failed as well (`FixOutcomes.RetestBlocksIff` is exact); after a passed one the finding
  becomes `inconclusive` and the run `completed` (`Walkthroughs.AReproducedExploitCanPass`).
- A `?` in a scope pattern is not escaped and acts as a quantifier: the pattern then never denotes its glob
  language, or does not compile (`UrlScope.PatternDenotesGlobIff`, `UrlScope.MarkExample`).
- Whether an IPv6 text with an embedded IPv4 address is judged by the IPv4 list depends on how it is
  written: `NetworkGuard.EmbeddedAnswer` says exactly when, and `NetworkGuard.SpellingMatters` gives two spellings
  of one address with different answers.
- Draining ends for all handlers that draw ids from a finite set, but not if running jobs can be cancelled
  for ever (`QueueTermination.CancellationNeverDrains`).
- The tenant limiter counts before it adds, so its limit can be exceeded, by exactly one less than the number
  of acquirers in between (`TenantLimiter.RacesReachTheBound`).
- The routing loop reads the remaining budget once and does not lower it as it escalates, so that what it
  escalates may be estimated to cost more than the run may still spend (`ReviewRuns.EscalationsExceedBudgetIff`
  says when, `Walkthroughs.AReviewCanOverspend` is an execution in which it does).
- Evidence from a mission without a finding is not replayed before a source-only fix is verified
  (`Walkthroughs.ExplorationCanBreakVerification`); no job handler starts such a mission.

## Model

| member | source | states |
|---|---|---|
| VerifiedFixes.VerifiedFixedIsEarned | src/orchestration/handlers/run-strix.ts:127-169 | in every execution, a step that moves a finding to `verified_fixed` is a review whose first report calls the finding a false positive, for one without confirmed evidence, or a retest that did not reproduce, on the fix commit, after a stored passed source check; with confirmed evidence it is always the retest |
| VerifiedFixes.ExecutionKeepsFixRows | src/remediation/submit-fix.ts:35-85 | the inductive invariant behind it: a finding under fix that needs no runtime retest has no confirmed validation, one that does need it has one, and a retest job is only ever enqueued for a finding with confirmed evidence |
| VerifiedFixes.FixStep | src/orchestration/handlers/run-deepsec.ts:69-176 | every single step, wherever it stops, keeps that invariant and verifies a fix only with the evidence required |
| VerifiedFixes.FixedNeeds | src/remediation/determine-verification-outcome.ts:25-39 | the outcome `verified_fixed` needs a passed source check, and if a replay is required, the right build and a passed replay |
| VerifiedFixes.ExplorationBreaksTheRows | src/correlation/correlate-strix-validation.ts:142-166 | why missions without a finding id are set apart: rediscovering a finding whose source-only fix is under retest breaks the invariant |
| Walkthroughs.ExplorationCanBreakVerification | src/correlation/correlate-strix-validation.ts:142-166 | and breaks its conclusion: there is an execution in which such a rediscovery precedes the review, and a finding with confirmed evidence is verified without a replay |
| Walkthroughs.AFixCanBeVerified | src/remediation/start-fix-verification.ts:25-31 | for any commits there is an execution from the first request to a source-only fix that is verified |
| Walkthroughs.AConfirmedFindingCanBeFixed | src/orchestration/handlers/run-strix.ts:93-171 | for any commits there is an execution through escalation, a confirmed exploit that blocks the run, and a fix that only the passed replay verifies |
| Walkthroughs.AFixCanBeStuck | src/remediation/complete-fix-verification.ts:27-30 | there is an execution after which the verification run is `completed` and the finding still `retesting` |
| Walkthroughs.AReproducedExploitCanPass | src/orchestration/handlers/run-strix.ts:93-171 | for any commits there is an execution in which a confirmed finding is fixed, its source check passes, the replay reproduces the exploit on the fix commit, and the run ends `completed` |
| Walkthroughs.FinalizingCanThrow | src/orchestration/handlers/deps.ts:22-31 | there is an execution whose last step runs the routing job of a run in `awaiting_fix` again, not cut short, and throws in `finalizeRun` |
| Walkthroughs.ScheduleIsMet | src/orchestration/handlers/run-strix.ts:28-85 | there is an execution that meets every hypothesis of `ReviewExecutions.DispositionOfReview`, with a finding in the queue and an exploit confirmed |
| Walkthroughs.AReviewCanStall | src/orchestration/handlers/run-strix.ts:28-85 | there is an execution in which the only mission of a run fails, its job returns, and the run is left in `validation_running` |
| Walkthroughs.AReviewCanOverspend | src/orchestration/handlers/routing-and-receipt.ts:26-84 | there is an execution that escalates two findings of a run whose remaining budget is the estimate for one |
| FixOutcomes.OutcomeIsExact | src/remediation/determine-verification-outcome.ts:25-39 | each of the five outcomes if and only if: every required check passed, every one failed, known but mixed, some unknown or against another build, no judgement possible |
| FixOutcomes.CompletionMoves | src/remediation/complete-fix-verification.ts:51-89 | from `retesting` the verdict never throws, the row keeps its commit and stores both checks and the outcome, the finding moves as the outcome says or stays, and no other row or finding changes |
| FixOutcomes.RetestConcludes | src/orchestration/handlers/run-strix.ts:93-171 | a retest left to finish, whatever else its run touched: the finding's new status for every stored source result, build match and verdict; the run is `blocked` if the finding ends `still_exploitable`, and otherwise ends as the other findings it touched say |
| FixOutcomes.RetestBlocksIff | src/orchestration/handlers/run-strix.ts:127-169 | the run of a finished retest is `blocked` iff the replay reproduced the exploit, the stored source check had failed and the head is the fix commit, or another finding it touched is confirmed or still exploitable |
| Revalidations.SourceRevalidationConcludes | src/orchestration/handlers/run-deepsec.ts:69-150 | the whole job of a source-only fix, left to finish, in any state where the run touches only findings that exist, as in every reachable one (`Revalidations.ExecutionTouchesExisting`): the finding is verified iff the first report says false positive, still exploitable iff it says true positive, and stays at `retesting` for any other list of reports, the empty one included; the run is `blocked` if the fix failed or another touched finding is exploitable, else `awaiting_fix` iff another is confirmed from source or the review discovers one, else `completed` |
| Revalidations.RuntimeFixConcludes | src/orchestration/handlers/run-deepsec.ts:69-176 | both jobs of a fix that needs a replay: when the finding is verified, still exploitable, left at `retesting` or inconclusive, and when the run is blocked, in terms of the first report, the two commits and the replay's verdict |
| Revalidations.BatchAdds | src/adapters/deepsec/persist.ts:67-171 | a batch of reports moves no finding that was there, the run touches exactly the new ones, and one of those is confirmed from source iff some report of high confidence is the first of its fingerprint |
| FixOutcomes.RetestingIsStuck | src/domain/finding-state-machine.ts:30-31 | from `retesting`, neither a new fix nor a new verification can be started |
| ReviewRuns.RoutingOutcome | src/orchestration/handlers/routing-and-receipt.ts:14-103 | the queued findings are distinct and exactly the escalated candidates; one Strix job is enqueued for each, in order, exactly those move, only on runs with a target, and with none the run is concluded at once |
| ReviewRuns.RoutingSelects | src/policy/routing-policy.ts:48-93 | which candidate gets a job and moves: with an allowed target, no validation of it against the head and at least 0.5 left, every critical one, a high one iff of high confidence or of a listed category, a medium one iff of a listed category, no low or info one; and nobody if one of the three is missing |
| ReviewRuns.RoutingRecords | src/policy/apply-routing-policy.ts:18-47 | one decision is recorded per candidate, in order, and says whether it was escalated |
| ReviewRuns.SpentAdds | src/orchestration/handlers/routing-and-receipt.ts:28-32 | only the run's own executions count against its budget, each of them once |
| ReviewRuns.RouteAllEffect | src/orchestration/handlers/routing-and-receipt.ts:47-84 | the loop over any candidates equals one judgement of each on the database it started from |
| ReviewRuns.EscalationsExceedBudgetIff | src/orchestration/handlers/routing-and-receipt.ts:32-69 | the escalations of one run together are estimated to cost more than its remaining budget iff that pays for one validation but not for all that are wanted |
| ReviewRuns.ValidationOutcome | src/orchestration/handlers/run-strix.ts:28-85 | for any number of validation jobs in any order, only the job that empties the queue concludes the run: `blocked` iff some verdict is confirmed, else `awaiting_fix` iff a candidate was skipped, else `completed`; a failed mission leaves it running |
| Missions.MissionMoves | src/orchestration/handlers/run-strix.ts:28-73 | where one validation job leaves its finding: confirmed, not reproduced or inconclusive as its verdict says, still queued if it failed, and only ever inconclusive without a head commit; its evidence and cost are stored and no other finding changes |
| Missions.KnownCorrelation | src/correlation/resolve-finding-status.ts:22-35 | for every expected commit, build and verdict: evidence on another build or from an incomplete test is inconclusive unless the mission failed, which moves nothing; the evidence is kept either way |
| Missions.CorrelationThrowsIff | src/correlation/correlate-strix-validation.ts:51-77 | on any other finding a mission throws iff it did not fail and the move it asks for is not in the table |
| Missions.CommitsMatchIff | src/correlation/build-match.ts:6-9 | two SHAs match iff they have the same digits, in either case and with any space around them; an empty build matches nothing |
| Missions.ReplayStores | src/orchestration/handlers/run-strix.ts:127-169 | a replay stores its verdict against the head it ran on, and its cost, and changes no other finding |
| Missions.JobsThrow | src/orchestration/handlers/prepare-and-classify.ts:17-113 | no job does anything for a run that does not exist, or before its snapshot where it needs one; a change is classified once |
| ReviewRuns.OrderDoesNotMatter | src/orchestration/handlers/run-strix.ts:75-83 | two schedules of the same jobs with the same verdicts end with the same run status |
| ReviewRuns.ReviewOutcome | src/orchestration/handlers/deps.ts:29-50 | from the end of the source review through routing and all validations, if any, to the disposition, stated on candidates and verdicts only |
| ReviewExecutions.ExecutionIsPiped | src/orchestration/handlers/prepare-and-classify.ts:60-90 | in every reachable state each job was enqueued for a run of the type whose pipeline has such a job, every review names a head commit that is a SHA, and a run that only validates a finding never advances |
| ReviewExecutions.ValidatedRunsHaveHeads | src/api/services/create-security-review.ts:10-43 | so the head of a run under validation always matches the build it is tested against, and a confirmed exploit is never set aside |
| ReviewExecutions.DeepSecReviews | src/orchestration/handlers/run-deepsec.ts:11-61 | a source review left to finish hands its run over as routing expects it: whatever it touched is suspected or confirmed from source |
| ReviewExecutions.DispositionOfReview | src/orchestration/handlers/run-strix.ts:28-85 | in every execution that carries a review from source review through routing to all its validation jobs, in any order and with any other steps in between: blocked iff some verdict is a confirmed exploit, else `awaiting_fix` iff some candidate was not escalated, else completed; a failed mission leaves it in validation |
| Dispositions.RunIsConcludedOnce | src/orchestration/handlers/deps.ts:29-74 | in every reachable state a run has at most one disposition event, and its receipt jobs and completion webhooks are an initial part of one package for that disposition |
| Dispositions.FinalizingAgainChangesNothing | src/orchestration/handlers/deps.ts:29-31 | finalizing a concluded run changes neither rows nor queue, and throws exactly when the run awaits a fix |
| Dispositions.FinalizingDelivers | src/orchestration/handlers/deps.ts:42-73 | the first call, left to finish, gives the disposition the findings call for and sends the whole package |
| Lawfulness.PerformIsLawful | src/domain/finding-transitions.ts:15-37 | every step of every handler and service, wherever it stops, keeps the ledger invariant and only appends |
| Lawfulness.FindingAuditTrail | src/domain/finding-transitions.ts:15-37 | in every reachable state a finding's events form one legal history from `suspected` to its stored status, and each event starts where the previous one ended |
| Lawfulness.RunAuditTrail | src/domain/run-transitions.ts:21-48 | the same for runs, each of which has at most eight states in its whole life |
| Lawfulness.RunTimestamps | src/domain/run-transitions.ts:28-37 | started iff the history entered `classifying`, completed iff the status is terminal, and the duration shown in a receipt is never negative |
| Lawfulness.ExecutionOnlyGrows | src/domain/run-transitions.ts:28-37 | between any two states of an execution no event, row identity or timestamp that was written is changed |
| Lawfulness.ExecutionKeepsRowsUnique | src/adapters/deepsec/persist.ts:91-96 | in every reachable state one finding per repository and fingerprint, one run per idempotency key |
| Lawfulness.CorrelateExploratoryIsLawful | src/correlation/correlate-strix-validation.ts:93-246 | a dynamic discovery, new or known, keeps the ledger: the walk through three statuses is a legal chain of events |
| Missions.DiscoveryEffect | src/correlation/correlate-strix-validation.ts:168-246 | a new dynamic discovery becomes one confirmed finding with the columns of its report, its evidence, a location iff one was found, and four events |
| Missions.RediscoveryEffect | src/correlation/correlate-strix-validation.ts:142-166 | a known one gains evidence and a last commit, and does not move |
| Lawfulness.UpsertAllIsLawful | src/adapters/deepsec/persist.ts:67-77 | a whole batch of reports never throws and keeps the ledger |
| StateMachines.TerminalListAgreesWithTable | src/domain/run-transitions.ts:5 | the list of terminal statuses kept for the timestamps is exactly the set of statuses without a next status |
| StateMachines.FindingEdgesBySource | src/domain/finding-state-machine.ts:21-35 | the table read the other way: for each status, exactly the statuses that lead to it |
| StateMachines.RunEdgesBySource | src/domain/run-state-machine.ts:26-47 | the same for runs: any that has not ended can be cancelled, and fails unless it awaits a fix |
| StateMachines.FindingHistoryBound | src/domain/finding-state-machine.ts:21-35 | a legal finding history has at most 2 + 2v + 4f moves, v and f counting entries to `validation_queued` and `fix_pending` |
| StateMachines.RunHistoryBound | src/domain/run-state-machine.ts:26-47 | a legal run history has at most 7 + 2k moves, k counting visits to `fix_verification_running` |
| StateMachines.VerifiedFixedTail | src/domain/finding-state-machine.ts:21-35 | every history that reaches `verified_fixed` ends fix_pending, fix_submitted, retesting, verified_fixed |
| Deduplication.PersistEffect | src/adapters/deepsec/persist.ts:31-81 | one batch never throws, returns the id of the right finding for every report, with equal ids exactly for equal fingerprints, and stores one location per report |
| Deduplication.UpsertIsExact | src/adapters/deepsec/persist.ts:91-171 | what one report writes: a known finding only moves its last commit, a new one takes its columns from the report and is confirmed at once iff of high confidence |
| Deduplication.ReviewsAreConserved | src/adapters/deepsec/persist.ts:91-171 | over any sequence of batches: as many new findings as creation events, one location per report, first commits unchanged, last commits those of the last batch that saw the finding |
| Stores.Store.TransitionFindingStatus | src/domain/finding-transitions.ts:15-37 | writes the new status and one event, or throws on a missing row or illegal move with the store unchanged |
| Stores.Store.TransitionRunStatus | src/domain/run-transitions.ts:21-48 | the same for a run, with both timestamps |
| Stores.Store.EndTransaction | src/remediation/submit-fix.ts:36 | a transaction keeps its writes only if nothing in it threw and the process lived to commit; otherwise the store is as before |
| Submissions.SubmitFixIsExact | src/remediation/submit-fix.ts:18-85 | a fix is accepted iff the finding exists and is at source_confirmed, confirmed, not_reproduced, inconclusive, still_exploitable or fix_pending; it then is at fix_submitted by one event or two, and its row starts over with the given commit, a replay due iff the finding was ever confirmed |
| Submissions.StartFixVerificationIsExact | src/remediation/start-fix-verification.ts:32-75 | a verification starts iff a fix is submitted and the key is new; the run is of the fix commit, and the move to `retesting` names it |
| Submissions.VerifyFixIsExact | src/api/services/finding-services.ts:148-196 | the service adds the new run's first job, or throws with nothing written |
| Submissions.CreateReviewIsExact | src/api/services/create-security-review.ts:36-110 | refused for a text that is no SHA, ignored for a key that is taken, else one queued run with the given commits and its first job |
| Submissions.ValidateFindingIsExact | src/api/services/finding-services.ts:57-117 | queues a finding that is confirmed from source, then creates a run against the last commit it was seen at and its mission; a key that is taken throws after the move |
| Submissions.CancelIsExact | src/domain/run-state-machine.ts:26-47 | a run can be cancelled exactly until it has ended, with its completion stamped |
| Missions.ShaIsNumeral | src/api/services/create-security-review.ts:10 | a SHA is a hexadecimal numeral of seven to forty digits |
| LifecycleTransactions.SubmitFix | src/remediation/submit-fix.ts:35-85 | the two moves and the upserted row in one transaction equal that specification, or nothing changed |
| LifecycleTransactions.PersistDeepSec | src/adapters/deepsec/persist.ts:31-81 | the loop over the reports equals the specification of the batch and returns its ids in order |
| LifecycleTransactions.CorrelateDiscovery | src/correlation/correlate-strix-validation.ts:79-246 | the discovery branch, with its loop of three moves, equals its specification |
| LifecycleHandlers.FinalizeRun | src/orchestration/handlers/deps.ts:29-74 | move, receipt and the loop over webhook types end exactly where the specification says, also when stopped in between |
| LifecycleHandlers.ApplyRouting | src/orchestration/handlers/routing-and-receipt.ts:14-103 | the routing loop, with the budget read once before it, and what settles it, also when stopped in between |
| LifecycleHandlers.Act | src/orchestration/handlers/register.ts:23-34 | whatever is run next, the store ends where the step relation of the executions says |
| QueueTermination.TurnDecreases | src/orchestration/in-memory-job-queue.ts:131-171 | one turn lowers the pair (ids not yet taken, attempts left) lexicographically, retries and chained enqueues included |
| QueueTermination.CancellationNeverDrains | src/orchestration/in-memory-job-queue.ts:158-161 | two jobs cancelled while running, each after enqueueing the other again, keep the queue busy for ever with two ids |
| QueueOrder.SortIsStable | src/orchestration/in-memory-job-queue.ts:133-135 | the sort by priority orders, loses nothing, and keeps the insertion order within each priority |
| JobQueues.NextIsLeast | src/orchestration/in-memory-job-queue.ts:131-142 | each pick is the least waiting job by priority and insertion position; none only if none waits |
| JobQueues.NextIsHeadOfPending | src/orchestration/in-memory-job-queue.ts:133-136 | the scan for the least job and the head of the sorted list are the same job |
| JobQueues.IdsAreFaithful | src/orchestration/in-memory-job-queue.ts:46 | two enqueues have one id iff organization, type and key are the same, as long as organizations have no colon |
| JobQueues.NewJobIsExact | src/orchestration/in-memory-job-queue.ts:52-66 | a new job takes its options or their defaults, has made no attempt, and is delayed iff a delay other than zero was asked for |
| QueueOrder.DrainFollowsStableSort | src/orchestration/in-memory-job-queue.ts:131-142 | with handlers that succeed and enqueue nothing, the calls are the stable priority sort of the waiting jobs |
| QueueOrder.RetryIsNext | src/orchestration/in-memory-job-queue.ts:156-170 | without cancelled jobs, a retry comes at once unless, and only unless, the handler enqueued a strictly smaller priority number |
| RetryOrder.AttemptsAreConsecutive | src/orchestration/in-memory-job-queue.ts:131-171 | over a whole drain without cancellation, of a queue with any past and with any handlers: between two calls of a job the drain logs only calls of that job, unless one of its calls enqueued a strictly smaller priority number |
| QueueAccounting.QueueIsBalanced | src/orchestration/in-memory-job-queue.ts:45-171 | over any operations: calls since creation or replay equal `attemptsMade` and stay within the allowance; completed means one success, last; failed means the whole allowance without any |
| QueueAccounting.InsertionOrderIsKept | src/orchestration/in-memory-job-queue.ts:53-66 | jobs keep the place of their insertion, replacement of a cancelled one included |
| QueueAccounting.DelayedJobsWait | src/orchestration/in-memory-job-queue.ts:131-136 | without cancellation a delayed job is never touched |
| QueueAccounting.DeadLetterIsTheFailed | src/orchestration/in-memory-job-queue.ts:108-118 | the dead letter lists exactly the failed jobs, in insertion order |
| InMemoryQueue.InMemoryJobQueue.EnqueueJob | src/orchestration/in-memory-job-queue.ts:45-70 | deduplicates by id, replaces a cancelled job, and reports which of the two happened |
| InMemoryQueue.InMemoryJobQueue.CancelJob | src/orchestration/in-memory-job-queue.ts:85-97 | cancels iff the job waits or is delayed |
| InMemoryQueue.InMemoryJobQueue.GetDeadLetterJobs | src/orchestration/in-memory-job-queue.ts:108-118 | the loop over the jobs computes the dead letter |
| InMemoryQueue.InMemoryJobQueue.RunNext | src/orchestration/in-memory-job-queue.ts:144-171 | one attempt: activated, the handler's enqueues applied, settled, and the account still balanced |
| InMemoryQueue.InMemoryJobQueue.Drain | src/orchestration/in-memory-job-queue.ts:131-142 | the loop ends for every reply sequence with ids from a finite set and finitely many cancellations; then no job waits, unless one has no handler |
| InMemoryQueue.InMemoryJobQueue.ReplayDeadLetterJob | src/orchestration/in-memory-job-queue.ts:120-129 | a failed job waits again with its attempts reset; if the queue is started it then drains until nothing waits or a job has no handler, and otherwise no handler is called |
| Webhooks.DeliveriesAreTracked | src/webhooks/deliver-webhook-handler.ts:22-69 | over any fan-outs and responses: one row per endpoint and occurrence, one job per row; the job completed iff delivered, failed iff exhausted; `attempts` counts the POSTs, at most three, and only the last may have succeeded |
| Webhooks.DrainSettlesDeliveries | src/webhooks/deliver-webhook-handler.ts:41-67 | once no job waits, every delivery got through or used three attempts |
| Webhooks.DrainIsReached | src/webhooks/deliver-webhook-handler.ts:22-69 | and three further calls of the handler per delivery, whatever the responses, are enough to get there |
| Webhooks.FanOutOneKeeps | src/webhooks/enqueue-delivery.ts:29-52 | a repeated fan-out reuses the row and its job and changes nothing |
| Webhooks.WebhookService.EnqueueWebhookDelivery | src/webhooks/enqueue-delivery.ts:20-55 | the loop over the endpoints upserts and enqueues as specified and returns the ids of the right rows |
| Webhooks.WebhookService.Deliver | src/webhooks/deliver-webhook-handler.ts:22-69 | status and attempts after one response; throws iff it did not succeed; a delivered row is not sent again |
| UrlScope.PatternDenotesGlob | src/authz/url-scope.ts:16-24 | for every pattern without `?` and every path, the compiled expression matches iff the path is the pattern with every star replaced by text within a line |
| UrlScope.PatternDenotesGlobIff | src/authz/url-scope.ts:21-23 | a pattern denotes its glob language on all paths if and only if it has no `?` |
| UrlScope.PathInGlob | src/authz/url-scope.ts:22 | on a one-line path a star stands for any text at all |
| UrlScope.MarkBreaksPattern | src/authz/url-scope.ts:22 | for every pattern with `?`, the path on which expression and glob differ |
| UrlScope.MarkExample | src/authz/url-scope.ts:22 | `/a?` matches `/` |
| UrlScope.MarkDoesNotCompile | src/authz/url-scope.ts:23 | `?` alone is a syntax error for every path |
| UrlScope.MethodPrefix | src/authz/url-scope.ts:14-20 | a pattern names a method iff its trimmed text matches the method expression in some way, and then method and path are those of any such way |
| UrlScope.SearchIsExact | src/authz/url-scope.ts:26-31 | for every list of patterns: the search is true iff some pattern hits and all before it compile, false iff all compile and none hits, and throws otherwise |
| UrlScope.ScopeIsTheUnion | src/authz/url-scope.ts:26-31 | patterns without `?` cover exactly the union of their globs, per method |
| UrlScope.RuleIsExact | src/authz/url-scope.ts:34-76 | every ruling if and only if: another authority iff protocol, hostname or port differ, where no port and 443 are the same under https and no port and 80 under http; then exclusions, then the allowed list |
| UrlScope.MethodsIgnoreCase | src/authz/url-scope.ts:28 | methods are compared letter by letter, in either case |
| UrlScope.AuthorizedIffWithinScope | src/authz/url-scope.ts:51-76 | for every target: a URL is let through iff protocol, host and port agree, the exclusions all compile and none hits, and the allowed list is empty or reached; in terms of globs, and never throwing, where no pattern has `?` |
| UrlScope.ScopeIsMonotone | src/authz/url-scope.ts:69-75 | for every target and pattern: an added exclusion never lets more through; an added allowed pattern never less, once there is one |
| AddressText.DecodesDottedQuad | src/authz/network-guard.ts:5-7 | decoding undoes dotted-quad printing for every value below 2^32 |
| AddressText.PrintsDecoded | src/authz/network-guard.ts:5-7 | and printing undoes decoding, so texts and values correspond one to one |
| AddressText.DecodesIpv6 | src/authz/network-guard.ts:9-30 | every text of an eight-group address, in any form of section 2.2 of RFC 4291, decodes to the sum of its groups times powers of 65536, below 2^128 |
| AddressText.NormalizedIsUndotted | src/authz/network-guard.ts:10-15 | rewriting the dotted tail gives the text of the same address in groups |
| AddressText.PartsOfPrint | src/authz/network-guard.ts:19-26 | splitting around `::` recovers exactly the groups before and after it |
| AddressText.Ipv6ToNumber | src/authz/network-guard.ts:9-30 | the code with its reassigned locals computes that value |
| NetworkGuard.ShiftIsBlock | src/authz/network-guard.ts:44-45 | equal after the shift iff in the same aligned block of that size |
| NetworkGuard.InCidrIffInBlock | src/authz/network-guard.ts:38-46 | the CIDR test is membership in the aligned block around the base |
| NetworkGuard.Ipv4IsAUnionOfIntervals | src/authz/network-guard.ts:51-74 | the IPv4 answer for every value is membership in an explicit union of intervals |
| NetworkGuard.Ipv6Answer | src/authz/network-guard.ts:69-84 | the IPv6 answer for every text: the embedded IPv4 answer if written `::ffff:a.b.c.d`, else by first group and the two single addresses |
| NetworkGuard.EmbeddedAnswer | src/authz/network-guard.ts:73-81 | a text whose groups embed an IPv4 address is refused iff it is written `::ffff:a.b.c.d` and that address is reserved |
| NetworkGuard.SpellingMatters | src/authz/network-guard.ts:73-81 | of two texts with the same eight groups, `DOTTED_LOOPBACK` is refused and `HEX_LOOPBACK` is not |
| NetworkGuard.LoopbackTexts | src/authz/network-guard.ts:76 | those texts are `::ffff:127.0.0.1` and `::ffff:7f00:1` |
| NetworkGuard.UnclassifiedIsRefused | src/authz/network-guard.ts:82-83 | a text that is no address is treated as reserved |
| NetworkGuard.AssertPublicAddress | src/authz/network-guard.ts:97-109 | accepted iff at least one address was resolved and none is reserved; otherwise the first reserved one is reported |
| TenantLimiter.LimitHoldsUpToRaces | src/orchestration/tenant-concurrency.ts:22-32 | under any interleaving with at most k acquirers between count and add, members plus pending stay within limit - 1 + k |
| TenantLimiter.SerialUseKeepsLimit | src/orchestration/tenant-concurrency.ts:22-28 | one client at a time never exceeds the limit |
| TenantLimiter.RacesReachTheBound | src/orchestration/tenant-concurrency.ts:22-28 | the bound is exact: a schedule that reaches it exists for every limit and k |
| TenantLimiter.MembersAreTheHolders | src/orchestration/tenant-concurrency.ts:30-32 | the set holds exactly the jobs added and not released since |
| TenantLimiter.TenantsAreIsolated | src/orchestration/tenant-concurrency.ts:18-20 | other tenants' commands make no difference to a tenant's set |
| TenantLimiter.TenantConcurrencyLimiter.TryAcquire | src/orchestration/tenant-concurrency.ts:22-28 | an uninterrupted acquisition adds the job iff the count is below the limit |
| ChangeClassifier.ClassifyChange | src/policy/change-classifier.ts:97-164 | the loops compute the set of categories of the files in the order of their first hits, the risk of that set, and exactly the reasons that the log of hits gives |
| ChangeClassifier.PatternCategory | src/policy/change-classifier.ts:106-116 | the loop over the priorities finds the first category the path mentions, if any |
| ChangeClassifier.PatternCategoryIsFirst | src/policy/change-classifier.ts:64-81 | of the categories whose words a path has, it is given the one with the least precedence number |
| ChangeClassifier.AuthorizationWords | src/policy/change-classifier.ts:33 | which words put a path into this category (with `SecretWords`, `PaymentWords`, `TenantWords`, `DeserializationWords`, `JobWords`, `InfrastructureWords`, `FileAndDataWords` and `ApiWords` for the others) |
| ChangeClassifier.AuthenticationWords | src/policy/change-classifier.ts:32 | the same, where the word `authentication` is shown to add nothing to `auth` |
| ChangeClassifier.ManifestNames | src/policy/change-classifier.ts:46-62 | which file names are a change of dependencies, in any directory and case |
| ChangeClassifier.RiskIsExact | src/policy/change-classifier.ts:146-158 | each risk if and only if, from the number of categories that are of high risk or recur and from exposed secrets next to authentication or authorization |
| ChangeClassifier.CollectHits | src/policy/change-classifier.ts:98-131 | the map that the loops fill holds the log of all hits of the files and the override patterns, in order |
| ChangeClassifier.AllHitsAre | src/policy/change-classifier.ts:106-131 | a path is logged under a category iff it is a changed file that has it |
| ChangeClassifier.ReasonsAreGrounded | src/policy/change-classifier.ts:92-144 | every category of the change, and no other, has a reason that names a changed file with that category; a recurrence is named iff the category was seen before; "nothing matched" iff there is no category |
| ChangeClassifier.OnePatternCategory | src/policy/change-classifier.ts:64-81 | a file has at most one category from the pattern table, and no later one wins |
| ChangeClassifier.OrderDoesNotMatter | src/policy/change-classifier.ts:106-121 | permuting the changed files changes neither categories nor risk |
| ChangeClassifier.RiskNeverFalls | src/policy/change-classifier.ts:146-158 | adding files, override patterns or previous categories never lowers the risk |
| ChangeClassifier.FindSensitivePaths | src/policy/sensitive-patterns.ts:37-42 | returns exactly the paths that match some override pattern |

## Left out

- Organizations, agents, permissions, policy versions and ownership checks: the model has one organization, and target authorization is an input.
- HTTP routes, the MCP server, GitHub, dashboards, receipts, instruction texts, reasons and titles beyond the classifier's: formatting and plumbing.
- Prisma, Redis and BullMQ internals: transactions are taken to be atomic with rollback, Redis commands to be atomic one by one.
- Engines, git snapshots, artifact files, DNS and outgoing requests: what they return is an arbitrary input.
- Fingerprints and idempotency keys are given as texts; the hash functions behind them are not part of this model.
- Row ids are positions and the clock is a counter moved by ticks; two events may carry the same time.
- Two handlers do not interleave within one another: one runs until it returns, throws or stops. A handler reads its rows once at the start, as the code does.
- The words that the job types, job keys and error messages are spelled with carry no meaning here beyond telling them apart.
- The webhook fan-out appears in the lifecycle as one call per event type, and in full in `Webhooks`; disabled endpoints, signatures, replay of deliveries and secret rotation are left out.
- `failureReason` of a run, `regressionTestStatus` of a remediation, and the columns that only describe (titles, line numbers, endpoints, tokens) are not stored.
- `run.failed` is never written by the modelled code, and `validation_waiting_for_target` and `fix_verification_running` are never entered; they stay in the tables.
- VerifiedFixes.VerifiedFixedIsEarned: does not cover executions with exploratory missions, which no job handler starts; `VerifiedFixes.ExplorationBreaksTheRows` and `Walkthroughs.ExplorationCanBreakVerification` show what they would break.
- ReviewExecutions.DispositionOfReview: what happens between two jobs is arbitrary as long as it leaves the run, its events and the status of its findings alone, and each job is left to finish; if the source review ran before and was cut short, none of its findings may have moved on.
- InMemoryQueue.InMemoryJobQueue.CancelJob: is called between turns, when no job is active; aborting a job while it is being run is the outcome `Aborted` of its handler's reply.
- LifecycleHandlers.ClassifyChange: does not store the classification itself nor choose between the diff and the full review job; the classifier is `ChangeClassifier`.
- InMemoryQueue.InMemoryJobQueue.EnqueueJob: does not start draining by itself; the microtask between enqueue and drain, timeouts, abort signals and `stop` are not modelled, and a handler that times out counts as one that throws.
- TenantLimiter.TenantConcurrencyLimiter.TryAcquire: is one client without interruption; interleaving is in the command model beside it.
- Lower-casing and upper-casing are those of the ASCII letters, and characters are Unicode code points where JavaScript has UTF-16 units.
- UrlScope.AuthorizedIffWithinScope: starts from parsed URLs; the URL parser itself is not part of this model.
- NetworkGuard.Ipv6Answer: starts from a text that is a valid address without zone id, as the runtime's `isIPv4` and `isIPv6` decide.
- The entries of the two reserved lists are built from base and prefix rather than parsed from one text.
- `evaluateRoutingPolicy` is modelled with the inputs that the routing handler fixes (runtime behaviour not required, not production).
