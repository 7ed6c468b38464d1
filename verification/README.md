# Norush: the batch lifecycle engine, verified

Norush takes requests, forms provider batches from them, follows the batches to their end, stores
the results, retries what failed, and delivers and eventually scrubs what succeeded. This project
models that engine in Dafny and proves what it promises.

- **The protocol** (`Protocol.dfy`). A `Snapshot` is everything that outlives a process: requests,
  batches and result rows, and the log of submit calls the provider has seen. An `Action` is one
  store write or one provider call. A crash may happen between any two of them, so it is simply the
  end of a run; whatever a restarted process does continues the run from the last snapshot. The
  invariant, the call bounds and the retry bounds hold in every state of every run.
- **The engine** (`Store.dfy`, `Splitter.dfy`, `Grouping.dfy`, `KeySelector.dfy`, `Submission.dfy`,
  `BatchManager.dfy`, `OrphanRecovery.dfy`, `ResultIngester.dfy`, `Repackager.dfy`,
  `Pipelines.dfy`, `StatusTracker.dfy`, `Polling.dfy`, `Queue.dfy`, `Norush.dfy`). The store is a
  class that journals every state it writes. Every phase is a method that loops over rows and
  updates the store one row at a time. `Store.Sound()` says that the journal so far is a run of the
  protocol; each phase keeps it, so the theorems about runs apply to every state a crash of these
  methods could leave behind. What a phase achieves is stated besides.
- **Self-contained parts**: the circuit breaker over call traces (`CircuitBreaker.dfy`), the quota
  protocol under interleaved handlers (`RateLimit.dfy`), delivery with backoff (`Delivery.dfy`), the
  retention sweep against a one-pass specification (`Retention.dfy`), the key vault's envelope and
  master key rotation (`Vault.dfy`, `RotateKeys.dfy`). `Types.dfy` and `Arithmetic.dfy` are shared.

What the model assumes, each stated as a precondition or built into a step:

- One worker, whose phases do not overlap (`flushing` and `ticking` guards, the order of `tick`).
  Pipelines started by an event run to their end before the next batch is looked at.
- Providers report results only for ids they were sent, each at most once per stream
  (`Reported` drops anything else; `ReplayableReported` shows it drops nothing more), and
  `checkStatus` never answers `pending`. Crash convergence of ingestion needs neither.
- A second result row for a request is a duplicate-key error; no other store call throws.
- AES-GCM decryption undoes encryption; HKDF yields 32 bytes.
- What providers and the key resolver will answer is a parameter: for a status check by batch and
  time (`ProviderScript`), for a result stream and whether it breaks off by batch, for building a
  key's provider by turn and position, and for a failed call by batch (`Resolver`). Whether a submit
  call is accepted is a free choice at each call.

Where code and comments disagree, the model follows the code. `norush.ts` lines 235-239 say that a
pipeline lost in a crash is triggered again while the batch shows as ended; nothing does that:
`StatusTrackers.EndedForGood` proves it of every run, and `PipelineCanBeLost` gives a run that stops
with a member still batched in an ended batch, in every continuation of which that batch is never
polled again. No component asks the circuit breaker for permission to submit: the tracker only
reports outcomes to it.

Results that hold only under a condition come with the exact condition, and an input that fails it:

- The split respects the limits iff `maxRequests` is at least 1 or every request is oversized
  (`Splitter.AcceptableIff`; `NotAcceptableAtZero`: with 0 it still emits chunks of one).
- The joined group key tells two users apart iff neither id shadows the other
  (`Grouping.KeysApartIff`).
- Two hex master keys are the same key iff they agree up to letter case (`RotateKeys.SameKeyIff`;
  `DifferentStringsSameKey`: 64 times `a` and 64 times `A` pass the check that the keys differ).
- No quota period is reset twice iff no two of the resets that were themselves replaced since had
  computed their period end at the same time (`RateLimits.OncePerPeriodIff`), and the period a handler
  saw expired is reset exactly once iff no two of them had both begun it (`OneResetIff`).
  `ResetTwice`: a handler that stalls for a whole period makes one period be reset twice. If none
  stalls that long, every period is reset once (`PromptResetsOnce`). The period end only moves on iff
  resets take effect in the order in which they computed it (`PeriodsMoveOnIff`). The quota itself
  needs none of these conditions (`QuotaBound`).
- The stored result of a request agrees with its status iff the row already there, or else the first
  element for it in the stream, is of the kind of the last element for it
  (`ResultIngester.RowAgreesIff`; `RowCanDisagree`: a request that failed once and succeeded when
  retried keeps the failure as its result).
- A recovery pass moves a due orphan with attempts left iff there is an adapter it may use
  (`OrphanRecovery.OrphanMovesIff`).

## Model

| member | source | states |
|---|---|---|
| Protocol.InvKept | packages/core/src/engine/batch-manager.ts:383-440 | every store write and provider call of the engine keeps the protocol invariant |
| Protocol.RunSafe | packages/core/src/engine/batch-manager.ts:361-453 | the invariant holds in every state of every run, with crashes anywhere |
| Protocol.CrashRestart | packages/core/src/engine/orphan-recovery.ts:78-114 | stopping a run after any write and continuing from the state left is again a run |
| Protocol.InFlightPayloadsExact | packages/core/src/engine/batch-manager.ts:557-651 | each in-flight batch has a provider reference, its payload is exactly its members, all batched; no request is in two in-flight payloads |
| Protocol.SucceededHasResult | packages/core/src/engine/result-ingester.ts:112-126 | in every state of every run, a request that succeeded has its result stored |
| Protocol.SubmitCallsBounded | packages/core/src/engine/orphan-recovery.ts:148-170 | submit calls never exceed submissionAttempts, which never exceeds maxSubmissionAttempts, at every point of every run |
| Protocol.RetriesBounded | packages/core/src/engine/repackager.ts:75-97 | retryCount stays within the budget; a request is recorded as submitted in at most retryCount + 1 batches |
| Protocol.ChargeDrops | packages/core/src/engine/repackager.ts:82-97 | 4 * (budget left) + status rank drops on every status change but the uncharged revert, which adds one |
| Protocol.MovesBounded | packages/core/src/engine/repackager.ts:75-97 | over any stretch a request changes status at most 4 * maxRetries + 3 times plus once per revert |
| Protocol.MovesBoundedInRun | packages/core/src/engine/repackager.ts:75-97 | the same for any run, from any state of it in which the request is stored |
| Stores.Store.constructor | packages/core/src/store/memory.ts:33-40 | an empty store is a run of length one |
| Stores.Store.Safe | packages/core/src/store/memory.ts:72-83 | a sound store is in a state that satisfies the invariant |
| Stores.Store.CreateResult | packages/core/src/engine/result-ingester.ts:327-340 | a duplicate request id changes nothing; otherwise exactly that row is added |
| Stores.Store.CommitNewRequest | packages/core/src/store/memory.ts:44-65 | a new request is queued, unbatched, with no retries spent |
| Stores.Store.CommitNewBatch | packages/core/src/store/memory.ts:110-134 | a new batch is pending, has no reference, no members and was never sent |
| Stores.Store.GetQueuedRequests | packages/core/src/store/memory.ts:85-94 | the oldest queued requests, in order, and none older left out |
| Stores.Store.GetRequestsByBatchId | packages/core/src/store/memory.ts:171-178 | exactly the members of the batch, in creation order |
| Stores.Store.GetPendingBatches | packages/core/src/store/memory.ts:151-158 | exactly the pending batches, in creation order |
| Stores.Store.GetInFlightBatches | packages/core/src/store/memory.ts:160-169 | exactly the submitted and processing batches, in creation order |
| Splitter.SplitByProviderLimits | packages/core/src/engine/batch-manager.ts:293-334 | chunks concatenate to the input without oversized requests, in order; each is within limits and full before the next starts |
| Splitter.FewestChunks | packages/core/src/engine/batch-manager.ts:293-334 | no split into contiguous runs within the limits has fewer chunks |
| Splitter.AcceptableIff | packages/core/src/engine/batch-manager.ts:316-323 | the chunks respect the limits iff maxRequests is at least 1 or every request is oversized |
| Splitter.NotAcceptableAtZero | packages/core/src/engine/batch-manager.ts:316-323 | with maxRequests 0 one small request already ends up in a chunk over the limit |
| Grouping.GroupRequests | packages/core/src/engine/batch-manager.ts:269-283 | groups in order of first appearance, each the requests of one key in input order |
| Grouping.GroupingPartitions | packages/core/src/engine/batch-manager.ts:269-283 | the groups together are a permutation of the input |
| Grouping.KeysApartIff | packages/core/src/engine/batch-manager.ts:103-105 | the joined key separates two users for all models exactly when neither id shadows the other |
| Grouping.PlainUsersApart | packages/core/src/engine/batch-manager.ts:103-105 | the key is injective when user ids contain no colon, whatever the models contain |
| Grouping.GroupsUniform | packages/core/src/engine/batch-manager.ts:263-283 | then every group has one provider, one model and one user |
| KeySelector.SelectKeys | packages/core/src/keys/selector.ts:96-128 | exactly the active keys to be tried, each once, by priority and then in the order given: the first of all, then the others that allow failover |
| KeySelector.SortSorts | packages/core/src/keys/selector.ts:103 | the priority sort is a stable sort of the same keys |
| Submission.AssignBatchToRequests | packages/core/src/store/memory.ts:96-98 | every request of the chunk is batched in the batch; no other request changes |
| Submission.RevertToQueued | packages/core/src/engine/batch-manager.ts:436-440 | the requests are exactly as before the assignment |
| Submission.SendChunk | packages/core/src/engine/batch-manager.ts:383-419 | batch, members and attempt are on record, under the given key, before one call for exactly the members; its outcome decides the status |
| Submission.SubmitWithLegacyProvider | packages/core/src/engine/batch-manager.ts:361-453 | the chunk ends all batched in one submitted batch or untouched; one call, for the chunk, in a batch under the owner's key, is made exactly when there is an adapter |
| NorushTypes.AdapterEntries | packages/core/src/engine/batch-manager.ts:361-382 | an adapter is found iff there is an entry for the owner or a shared one of the provider; no other entry counts |
| Submission.SubmitBatchWithAdapter | packages/core/src/engine/batch-manager.ts:557-651 | one call for the chunk in a new batch under the key; accepted: submitted; failed with an eligible error: the chunk untouched, the batch failed and empty; failed with another: the chunk batched in the batch, which stays pending |
| Submission.TryKey | packages/core/src/engine/batch-manager.ts:500-548 | a key whose provider cannot be built leaves no trace; any other makes exactly one call, for the chunk, in a new batch under that key |
| Submission.SubmitWithFailover | packages/core/src/engine/batch-manager.ts:466-548 | by the resolver's answers and the calls made alone: candidates are looked at in order, one call made under each that can be built, every error but the last was eligible, and looking stopped only at a success, at a non-eligible error or at the end; the chunk ends where the last call left it |
| Submission.EachCallTold | packages/core/src/engine/batch-manager.ts:515-548 | a call failing with an eligible error fails its batch and the next candidate is looked at; a success or any other error is the last of the turn, and the chunk stays in its batch |
| Submission.NoStrays | packages/core/src/engine/batch-manager.ts:617-630 | no request points at any other batch created on the way |
| BatchManagers.LookupCached | packages/core/src/engine/batch-manager.ts:204-213 | the cached catalog answer is the direct one, misses included |
| Stores.CatalogKeysApart | packages/core/src/engine/batch-manager.ts:204-213 | a cache key belongs to one provider and one model |
| BatchManagers.PreflightLifecycle | packages/core/src/engine/batch-manager.ts:201-257 | requests for retired models fail for good, the others survive in order, nothing else changes |
| BatchManagers.FormBatches | packages/core/src/engine/batch-manager.ts:157-165 | chunks of one key within limits, holding each sendable request exactly once; those of one key are its requests in order, each full before the next begins |
| BatchManagers.FewestBatches | packages/core/src/engine/batch-manager.ts:157-165 | no other way of cutting a group into runs within the limits needs fewer batches |
| BatchManagers.BatchManager.Flush | packages/core/src/engine/batch-manager.ts:144-169 | flush conservation, over exactly the oldest queued requests; what is not retired is formed into chunks and each chunk sent out: the new calls are those for the chunks, in order, with one new batch for each call; a second flush does nothing |
| BatchManagers.BatchManager.EachSentOut | packages/core/src/engine/batch-manager.ts:157-169 | whatever is neither retired nor oversized is in one of the chunks sent out, and with users apart that chunk is its user's |
| BatchManagers.FlushConserves | packages/core/src/engine/batch-manager.ts:144-257 | retired, placed in a batch that counts its members, or still queued: each fetched request is exactly one of them |
| OrphanRecovery.MarkOrphanFailed | packages/core/src/engine/orphan-recovery.ts:224-239 | the batch and exactly its members fail |
| OrphanRecovery.OrphanRecovery.Resubmit | packages/core/src/engine/orphan-recovery.ts:128-193 | an attempt is counted, and one call made for exactly the members unless there are none, exactly when the batch can be claimed and has an adapter; it succeeds iff the call is accepted |
| OrphanRecovery.OrphanRecovery.Recover | packages/core/src/engine/orphan-recovery.ts:78-114 | told from ages alone: a batch written within the grace period is left alone with its members and calls; an older pending one is failed with its members if its attempts are used up, else retried if it can be, with one call for exactly its members; both counts are exact |
| OrphanRecovery.OrphanSettles | packages/core/src/engine/orphan-recovery.ts:85-110 | over recovery passes with pending batches kept in between, an orphan older than the cutoff and triable whenever it is found pending is submitted or failed within its remaining attempts |
| OrphanRecovery.OrphanMovesIff | packages/core/src/engine/orphan-recovery.ts:138-151 | a pass changes a due orphan with attempts left iff it can be tried; if it stays pending it has strictly fewer attempts left, and still one |
| ResultIngester.CrashConvergent | packages/core/src/engine/result-ingester.ts:108-188 | any number of runs stopped after any write, then a full run, leave the state of one uninterrupted run, for every stream |
| ResultIngester.FullPassConverges | packages/core/src/engine/result-ingester.ts:139-147 | a full run from any half-ingested state ends where it would have from the start |
| ResultIngester.LastOutcomeWins | packages/core/src/engine/result-ingester.ts:109-124 | a request ends with its last outcome in the stream, and is otherwise unchanged |
| ResultIngester.FirstRowWins | packages/core/src/engine/result-ingester.ts:139-147 | the stored row is the first one ever |
| ResultIngester.RowAgreesIff | packages/core/src/engine/result-ingester.ts:108-147 | row and status agree iff the row already there, or else the first element, is of the kind of the last element |
| ResultIngester.RowCanDisagree | packages/core/src/engine/result-ingester.ts:139-147 | a run after which ingesting a success leaves the request succeeded with a failure stored |
| ResultIngester.Recount | packages/core/src/engine/result-ingester.ts:180-188 | the counters are the numbers of members that succeeded and failed |
| ResultIngester.Ingest | packages/core/src/engine/result-ingester.ts:83-212 | the states written are exactly the run's journal; new rows, duplicates and errors are counted exactly |
| ResultIngester.JournalFollows | packages/core/src/engine/result-ingester.ts:108-147 | ingestion takes only steps the protocol allows |
| Repackager.Repackage | packages/core/src/engine/repackager.ts:66-119 | failed and expired members are re-queued and charged while the budget lasts, else failed for good; the counts are exact |
| Pipelines.OnBatchExpired | packages/core/src/norush.ts:267-292 | no member is left batched, processing, failed or expired, whatever happened before |
| Pipelines.OnBatchCompleted | packages/core/src/norush.ts:240-263 | settles the batch if the stream covers it; a broken stream stops before repackaging |
| Pipelines.CompletedSettles | packages/core/src/norush.ts:240-263 | with an adapter, a stream that covers the batch and does not break off settles it and gives the exact tallies |
| Pipelines.SettlesPipeline | packages/core/src/norush.ts:240-263 | each member succeeded, was re-queued and charged, or failed for good; requeued + exhausted = failedCount; the counters add up to the members |
| Polling.ClampingIsIdentity | packages/core/src/polling/clamp.ts:20-25 | clamping changes none of the four presets, for every context and time |
| Polling.ClampedRange | packages/core/src/polling/index.ts:76-82 | any clamped strategy waits between 10 seconds and 15 minutes |
| Polling.PresetRange | packages/core/src/polling/strategies.ts:23-133 | every preset stays between 15 seconds and 10 minutes |
| Polling.BackoffDoubles | packages/core/src/polling/strategies.ts:54-56 | the backoff starts at 30 seconds and doubles up to its cap, reached exactly from poll count 5 on |
| Polling.DeadlineAccelerates | packages/core/src/polling/strategies.ts:83-100 | the deadline-aware interval never grows as time passes |
| Polling.DeadlineEnds | packages/core/src/polling/strategies.ts:90-99 | it is five minutes at submission and fifteen seconds from the deadline on |
| Polling.DeadlineStraight | packages/core/src/polling/strategies.ts:90-99 | in between it falls on a straight line |
| Polling.PresetRules | packages/core/src/polling/strategies.ts:23-133 | linear waits a minute; eager waits 15 seconds for five minutes, then as the backoff |
| StatusTrackers.StatusTracker.Poll | packages/core/src/engine/status-tracker.ts:242-304 | a check is made exactly when there is an adapter and the batch is due; the poll state remembers it; the reference is never missing |
| StatusTrackers.DueByThen | packages/core/src/engine/status-tracker.ts:309-317 | a batch never polled, or last polled ten minutes ago, is due |
| StatusTrackers.StatusTracker.ApplyStatusTransition | packages/core/src/engine/status-tracker.ts:337-386 | a new status is written and its pipeline runs: ingestion of the reported stream and repackaging when ended, repackaging when expired; an equal one changes nothing; a failure is reported to the breaker |
| StatusTrackers.StatusTracker.DoTick | packages/core/src/engine/status-tracker.ts:213-236 | recovery, then every batch in flight after it, recovered ones included, has its turn once, in order: checked iff due, its answer followed; pending batches are left alone; the breaker is told a success per recovered orphan and a failure per batch found failed |
| StatusTrackers.StatusTracker.TurnTold | packages/core/src/engine/status-tracker.ts:242-304 | each in-flight batch is checked exactly when an adapter is found and its interval has passed; what the provider says then takes effect |
| StatusTrackers.StatusTakesEffect | packages/core/src/engine/status-tracker.ts:337-386 | a reported status is on record afterwards, and no other batch changes |
| StatusTrackers.ExpiredSettles | packages/core/src/norush.ts:267-292 | a batch found expired leaves no member batched, processing, failed or expired |
| StatusTrackers.EndedSettles | packages/core/src/norush.ts:240-263 | a batch found ended is settled if the reported stream covers it and does not break off |
| StatusTrackers.PollsSurvive | packages/core/src/engine/status-tracker.ts:392-416 | whatever protocol steps happen between ticks, the spacing invariant survives |
| StatusTrackers.StatusTracker.ChecksApart | packages/core/src/engine/status-tracker.ts:309-317 | any two checks a process made of a batch were called at least ten seconds apart per poll between them |
| StatusTrackers.TenSecondsApart | packages/core/src/engine/status-tracker.ts:309-317 | the same of any spaced list of checks: k polls later means at least 10 * k seconds later |
| StatusTrackers.EndedForGood | packages/core/src/store/memory.ts:160-169 | a terminal batch never comes back in flight |
| StatusTrackers.PipelineCanBeLost | packages/core/src/norush.ts:235-239 | a run that stops with a member still batched in an ended batch, which is never in flight again in any continuation |
| StatusTrackers.ReplayableReported | packages/core/src/engine/result-ingester.ts:108 | a stream that keeps to the assumption about providers is ingested as it is |
| Queues.CountersRefine | packages/core/src/engine/queue.ts:75-88 | under any interleaving of enqueues and flushes the counters are the length and byte sum of what no completed flush covered |
| Queues.NeverClips | packages/core/src/engine/queue.ts:165-180 | the clamp at zero never takes effect |
| Queues.EnqueueTriggersIff | packages/core/src/engine/queue.ts:155-163 | an enqueue leaves a flush running iff one was, or a threshold is met |
| Queues.RequestQueue.Enqueue | packages/core/src/engine/queue.ts:75-88 | the request is counted, then a flush begins iff a threshold is met and none is running |
| Queues.RequestQueue.FinishFlush | packages/core/src/engine/queue.ts:173-179 | a successful flush subtracts its snapshot, a failed one nothing |
| Norush.Engine.Enqueue | packages/core/src/norush.ts:296-298 | the request is stored; a flush runs iff a threshold is met, and conserves every request |
| Norush.Engine.Tick | packages/core/src/norush.ts:304-310 | flush, then recovery and tracking, then delivery, then retention, each with all it achieves; all writes are protocol steps, and the next operation may start |
| Norush.Engine.OrphanSettlesInTicks | packages/core/src/norush.ts:304-310 | over ticks with any enqueues and flushes in between, an orphan that stays due and triable is submitted or failed within its remaining attempts |
| CircuitBreakers.ReadsInvisible | packages/core/src/engine/circuit-breaker.ts:68-79 | reads of the state inserted anywhere in a trace change no other answer |
| CircuitBreakers.NoGrantWhileOpen | packages/core/src/engine/circuit-breaker.ts:94-103 | no submission is granted in [trip, trip + cooldown) without a reset |
| CircuitBreakers.OneProbePerTrip | packages/core/src/engine/circuit-breaker.ts:94-103 | from a trip to the next outcome exactly one submission is granted if anyone asks after the cooldown, else none |
| CircuitBreakers.OneProbe | packages/core/src/engine/circuit-breaker.ts:97-101 | a half-open episode grants at most one probe |
| CircuitBreakers.TripsExactly | packages/core/src/engine/circuit-breaker.ts:135-155 | a failure trips iff half-open, or closed and completing a run of threshold failures |
| CircuitBreakers.GrantedExactly | packages/core/src/engine/circuit-breaker.ts:94-103 | told from the calls before it: a submission is granted while no trip stands, and while one does exactly to the first that asks after the cooldown |
| CircuitBreakers.TrippedExactly | packages/core/src/engine/circuit-breaker.ts:135-155 | a failure trips iff a trip stands and its cooldown is over, or none stands and it completes the run |
| CircuitBreakers.ShownExactly | packages/core/src/engine/circuit-breaker.ts:68-79 | a read shows closed iff no trip stands, else open or half-open by the clock |
| CircuitBreakers.ClosedGrants | packages/core/src/engine/circuit-breaker.ts:110-123 | from the start, a reset or a success after the cooldown, every submission is granted until threshold failures were recorded |
| CircuitBreakers.CircuitBreaker.Submittable | packages/core/src/engine/circuit-breaker.ts:94-103 | `canSubmit` answers and leaves the fields exactly as the trace theorems' step does |
| CircuitBreakers.CircuitBreaker.Failed | packages/core/src/engine/circuit-breaker.ts:135-155 | `recordFailure` answers and leaves the fields exactly as the trace theorems' step does |
| CircuitBreakers.CircuitBreaker.Succeeded | packages/core/src/engine/circuit-breaker.ts:110-123 | `recordSuccess` leaves the fields exactly as the trace theorems' step does |
| RateLimits.EffectiveLimitRange | packages/core/src/rate-limit/health.ts:44-48 | the effective limit is at least 1 and at most max(base, 1) |
| RateLimits.TiersOfRate | packages/core/src/rate-limit/health.ts:28-35 | the tiers are those of the quotient succeeded / total; an empty window is healthy |
| RateLimits.LimitIsFloor | packages/core/src/rate-limit/health.ts:44-48 | the limit is the floor of base times factor, at least 1 |
| RateLimits.HealthMonotone | packages/core/src/rate-limit/health.ts:25-36 | more successes in a window never lower the limit |
| RateLimits.AllowedIff | packages/core/src/rate-limit/limiter.ts:45-110 | a submission passes iff no limit set is reached, counting the running period only; which error is reported is exact |
| RateLimits.RetryAfterSuffices | packages/core/src/rate-limit/limiter.ts:127-140 | waiting out Retry-After reaches the period end within a second; then the submission passes iff it fits alone |
| RateLimits.LimitsStore.ConsumePeriodRequests | packages/core/src/store/memory.ts:648-669 | consumes exactly when the request fits; throws exactly on malformed arguments |
| RateLimits.LimitsStore.ResetPeriod | packages/core/src/store/memory.ts:685-695 | resets only an expired period |
| RateLimits.Admit | packages/web/src/routes/api/v1/requests/+server.ts:163-223 | undisturbed, what the check allows is admitted and charged exactly, to the right period |
| RateLimits.QuotaBound | packages/web/src/routes/api/v1/requests/+server.ts:185-199 | however handlers interleave, between two effective resets they grant at most max(B, 1) requests |
| RateLimits.PeriodsMoveOnIff | packages/web/src/routes/api/v1/requests/+server.ts:185-190 | the period end only ever moves on iff the resets that take effect do so in the order in which they computed the new end |
| RateLimits.PromptInOrder | packages/web/src/routes/api/v1/requests/+server.ts:185-190 | they do if no handler stalls until the end of the period it is about to begin |
| RateLimits.OncePerPeriodIff | packages/core/src/store/memory.ts:685-695 | no period is reset twice iff no two resets, of those replaced since, had computed their period end at the same time |
| RateLimits.OneResetIff | packages/core/src/store/memory.ts:685-695 | a period that a handler saw expired and stepped past is reset; exactly once iff no two of the resets replaced since had both begun it |
| RateLimits.OneResetPerPeriod | packages/core/src/store/memory.ts:685-695 | when those times all differ, it is reset exactly once, however many handlers saw it expired |
| RateLimits.PromptResetsOnce | packages/web/src/routes/api/v1/requests/+server.ts:185-193 | so it is when no handler stalls until the end of the period it is about to begin |
| RateLimits.ResetTwice | packages/web/src/routes/api/v1/requests/+server.ts:185-190 | a run in which a stalled handler makes one period be reset twice |
| Deliveries.DeliveryStore.GetUndeliveredResults | packages/core/src/store/memory.ts:230-239 | the oldest pending or failed results, in order, and none older left out |
| Deliveries.DeliveryWorker.DeliverResult | packages/core/src/engine/delivery-worker.ts:251-390 | orphaned, without target, delivered, retried later or exhausted: each exactly in its case |
| Deliveries.DeliveryWorker.Tick | packages/core/src/engine/delivery-worker.ts:207-245 | exactly the due results among the fetched are handled once, and counted |
| Deliveries.AttemptedExactly | packages/core/src/engine/delivery-worker.ts:207-245 | of the fetched results exactly those whose time has come, within their limit and with a target, are attempted, once |
| Deliveries.AttemptsBounded | packages/core/src/engine/delivery-worker.ts:231-234 | in every valid delivery store, the log holds at most the effective maximum of attempts per result, none after a success, and a success leaves the result delivered |
| Deliveries.TotalWait | packages/core/src/engine/delivery-worker.ts:403-406 | in every valid delivery store, n failures of a result force a wait of 10000 * (2^n - 1) ms for n <= 6 and 630000 + 600000 * (n - 6) beyond, by the log |
| Retention.RetentionStore.ScrubExpiredContent | packages/core/src/store/memory.ts:270-296 | exactly the terminal requests and the results older than the cutoff are scrubbed, and counted |
| Retention.RetentionStore.ScrubContentForUser | packages/core/src/store/memory.ts:298-331 | the same for one user's records |
| Retention.RetentionStore.ScrubDeliveredContent | packages/core/src/store/memory.ts:333-364 | exactly the user's delivered results and their requests are scrubbed, and counted |
| Retention.RetentionStore.ScrubEventLogsForScrubbedContent | packages/core/src/store/memory.ts:428-460 | exactly the events about scrubbed records lose their details |
| Retention.RetentionWorker.ScrubByPolicy | packages/core/src/engine/retention-worker.ts:279-337 | every listed user's policy scrubs its own records; invalid policies are counted as errors |
| Retention.RetentionWorker.Sweep | packages/core/src/engine/retention-worker.ts:186-269 | scrubs exactly what the one-pass specification calls due; totalScrubbed is the number of records scrubbed |
| Retention.TwoPassesAreOne | packages/core/src/engine/retention-worker.ts:208-241 | the hard cap pass and the policy pass amount to the one-pass specification |
| Retention.TimeBasedIff | packages/core/src/engine/retention-worker.ts:111-119 | under a time-based policy a request is due iff terminal and older than min(policy, cap) days |
| Retention.TimeBasedResultIff | packages/core/src/store/memory.ts:316-328 | the same for results of existing requests |
| Retention.OnAckIff | packages/core/src/engine/retention-worker.ts:279-337 | under on_ack a request is due iff terminal and past the cap, or a delivered result of it within the cap is not scrubbed |
| Retention.OnAckResultIff | packages/core/src/store/memory.ts:333-364 | under on_ack a result is due iff delivered or past the cap |
| Retention.CapOnlyIff | packages/core/src/engine/retention-worker.ts:208-241 | without a valid policy only the hard cap counts |
| Retention.PolicyRead | packages/core/src/engine/retention-worker.ts:94-104 | "<n>d" is n days, "0d" and "on_ack" are on delivery, no answer is the default, a throwing resolver is no policy |
| Retention.OnlyPolicies | packages/core/src/engine/retention-worker.ts:94-104 | nothing else is a policy |
| Retention.NoDetailsLeft | packages/core/src/store/memory.ts:447-457 | every event about a scrubbed record is null or a tombstone |
| Retention.SecondSweepIdle | packages/core/src/engine/retention-worker.ts:186-269 | a second sweep at the same time has nothing to do |
| Vault.EnvelopeParts | packages/core/src/crypto/vault.ts:126-128 | the envelope is version 1, IV, ciphertext, tag, and the parts read from it are the parts written |
| Vault.PartsEnvelope | packages/core/src/crypto/vault.ts:93 | every long enough blob of the right version is the envelope of its parts |
| Vault.RoundTrip | packages/core/src/crypto/vault.ts:78-139 | what was encrypted decrypts to itself; encryption fails exactly on empty text or a bad key length |
| Vault.SameHexIff | packages/core/src/crypto/vault.ts:46-49 | two hex keys are the same bytes iff their digits have the same values |
| Vault.HexRoundTrip | packages/core/src/crypto/vault.ts:46-49 | bytes written as hex digits are read back |
| Vault.HighDigitFirst | packages/core/src/crypto/vault.ts:46-49 | the high digit of a byte comes first |
| RotateKeys.Database.SelectPage | packages/core/src/cli/rotate-key.ts:71-85 | the first rows after the last id, in order, none skipped |
| RotateKeys.RotateAll | packages/core/src/cli/rotate-key.ts:65-121 | terminates for every table; every row visited exactly once |
| RotateKeys.Rotate | packages/core/src/cli/rotate-key.ts:54-122 | on success each row decrypts under the new key to what it held under the old one and the count is the number of rows; on failure or dry run the table is unchanged |
| RotateKeys.SameKeyIff | packages/core/src/cli/rotate-key.ts:58-60 | two different hex keys are the same master key iff they differ in letter case only |
| RotateKeys.DifferentStringsSameKey | packages/core/src/cli/rotate-key.ts:58-60 | two different hex strings that are accepted and are the same key |

## Left out

- The one database behind the engine: the lifecycle, delivery and retention parts each have a store of their own, with the columns they read, so a result ingested in one does not appear in the others.
- Provider SDK calls, HTTP, webhook signing, SQL text, migrations, timers, telemetry and event emitters: only their success or failure appears, as a free choice.
- Token, spend and usage counters of ingestion: the code accepts double counting, so nothing exact can be said about them.
- JSON byte sizes and error-message matching: `bytes` of a request and the eligible/other outcome of a failed call are abstract.
- Unknown polling strategy names, for which creating the poll state throws.
- Promise.all writes of one step are made in list order; at the level of the protocol any order of them is a run too.
- Recovery, polling or pipelines of several workers at once, and pipelines that overlap the next tick.
- Requests of failed or cancelled batches and of failed orphans: no handler repackages them, so no theorem says they are retried.
- The manual retry and redeliver routes, which reset budgets, and the other web routes, auth, dashboards and catalog scraping.
- Delivery across crashes: a process that stops between a callback and its write repeats the attempt uncounted.
- Delivery liveness: exhausted rows keep occupying the fetch window, so later results may wait for ever.
- The other record columns that none of these decisions read (labels, external ids, stop reasons, ended and submitted times, webhook secrets).
- Floating point: health factors are divisors and poll intervals are real numbers; policy day counts are unbounded integers.
- UTF-8 decoding of decrypted keys: plaintexts are byte sequences.
- Rows of other sessions that change during a rotation: the transaction sees one table.
- Rate limit headers, configuration defaults, pricing and key masking, which would only add easy members.
