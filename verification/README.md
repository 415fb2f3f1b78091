# Document Insight: verified model

A Dafny model of the parts of Document Insight whose correctness does not show in one body: the ingestion
job protocol, the page-window chunker, rank fusion and evidence selection, evaluation scoring, the
evaluation gate with the profile switches behind it, and the query rate limiter.

| part | files |
|---|---|
| text and chunking | `PyText`, `PageWindow`, `PageWindowLaws` |
| ingestion protocol | `Jobs`, `Reconciliation`, `Embedding`, `IngestionSystem`, `IngestionLaws`, `IngestionProgress`, `TerminalStates`, `AttemptBudget`, `ProcessingService` |
| query pipeline | `Fusion`, `FusionLaws`, `FusionWeights`, `Query` |
| scoring | `Anchors`, `Scoring`, `ScoringLaws`, `MicroAveraging` |
| evaluation and activation | `ManifestCodec`, `Evaluation`, `Activation`, `Governance`, `EvaluationLaws`, `ActivationLaws`, `EvaluationRunner` |
| rate limit | `RateLimiter` |

Repositories, services and algorithms that change state are classes and methods with loops, each proved
equal to a specification function on values; the laws are lemmas about those functions. Where a contract or
a law says what a row, a list or a decision is to be, it says so on the fields themselves, in ghost predicates
that no body uses. Two state machines
carry the statements over whole runs. `IngestionSystem` runs one job with any number of workers, deliveries,
crashes and reconciler passes. `Governance` runs suites, evaluation runs, reviews, index generations and the
profile pointers together. Their `Next` functions use the same specification functions as the methods, and
`ProcessingService.Process` and `EvaluationRunner.Run` keep a ghost trace that is a legal run of their system.

Idealisations. Every transaction is one atomic step on maps. That includes the retry coordinator's calls, which
the service makes outside `transactions.begin()`: its `get` and `retry` are modelled as one committed step.
Floats are reals. A UUID is a natural number; its canonical text is modelled where anchors and JSON need it, and
text order is proved to be number order. Providers, the parser, the queue and the clock are parameters: the
parser is deterministic, the embedder pointwise, everything else is arbitrary. Redis serves a counter
up to and including the millisecond it expires in, and reports the remaining seconds rounded to the nearest one.

Where the code does less than its descriptions suggest, the model follows the code:

- `max_attempts` bounds the claims, but a transient failure counts twice (once in the claim, once in the
  retry), so a job that always fails transiently gets three runs under the default limit of five
  (`TransientFailuresCountTwice`).
- READY and FAILED are written without a guard. FAILED is final exactly when no worker may write once its
  claim is as old as the stale threshold; READY also when there is a single attempt (`FailedIsFinalIff`,
  `ReadyIsFinalIff`).
- A resume that finds both checkpoints set fails its last assertion and is retried, so a worker lost just
  before completion strands its job for good (`LostLastStepStrandsTheJob`). `ReadyIsReachableIff` says
  exactly which states can still finish.
- The fixed window admits up to 2·limit − 1 calls within one window length (`SlidingWindowBound`).
- The delay told to a refused caller can fall short of the window's end by the rounding (`AdvertisedDelay`).
- The cohort check covers what is ready at a query switch. A test tenant's selection is not checked against
  the active query profile (`OnlyLateGenerationsHide`, `TestUploadsCanBeUnread`).
- `SourceSpan` calls its offsets page-local, while the chunker's offsets count from the start of the document;
  the model keeps the latter.

## Model

| member | source | states |
|---|---|---|
| `PageWindow.PageWindowDocumentChunker.Chunk` | src/document_insight/infrastructure/document_chunker/page_window.py:23-35 | the loop over the form-feed pages, with its running page start and ordinals, returns exactly the specified chunks of the whole text |
| `PageWindow.PageWindowDocumentChunker.ChunkRawPage` | src/document_insight/infrastructure/document_chunker/page_window.py:27-34 | stripping one raw page and shifting by its leading whitespace gives that page's specified chunks |
| `PageWindow.PageWindowDocumentChunker.ChunkPage` | src/document_insight/infrastructure/document_chunker/page_window.py:37-63 | the window loop emits the visible part of every window, with its offsets, and stops after the window that ends the page |
| `PageWindow.PageWindowDocumentChunker.FindNextStart` | src/document_insight/infrastructure/document_chunker/page_window.py:65-71 | the overlap scan finds the next window start: strictly after the current one, and after whitespace or exactly one past it |
| `PageWindow.PageWindowDocumentChunker.PreferredBreak` | src/document_insight/infrastructure/document_chunker/page_window.py:72-79 | the backward scan finds the last break in the second half of the window, or gives the full end |
| `PageWindow.PageWindowDocumentChunker.AppendWindow` | src/document_insight/infrastructure/document_chunker/page_window.py:46-59 | one window appends its trimmed text with shifted offsets, or nothing when it is blank |
| `PageWindow.WindowEnd` | src/document_insight/infrastructure/document_chunker/page_window.py:43-47 | a window ends at the page's end when that is within reach; otherwise at the last whitespace break in its second half, or at its full size when there is none |
| `PageWindow.NextStart` | src/document_insight/infrastructure/document_chunker/page_window.py:65-71 | the next start is the last word start after the current one and at or before end − overlap, or exactly one past the current start when there is none; it never passes the current end |
| `PageWindowLaws.EndNeverMovesBack` | src/document_insight/infrastructure/document_chunker/page_window.py:43-47 | although the break search moves ends, a window that starts later never ends earlier |
| `PageWindowLaws.NextFollows` | src/document_insight/infrastructure/document_chunker/page_window.py:41-71 | one step of the window loop: start increases, end does not decrease, at least min(overlap, width − 1) characters are shared, and the new start follows whitespace or is one past the old one |
| `PageWindowLaws.WindowsChain` | src/document_insight/infrastructure/document_chunker/page_window.py:41-63 | the windows of a page run from its first to its last character, each following the one before it, and there are at most as many as characters: the loop terminates |
| `PageWindowLaws.WindowsOrdered` | src/document_insight/infrastructure/document_chunker/page_window.py:41-63 | over any two windows of a page both ends are ordered |
| `PageWindowLaws.ChainCovers` | src/document_insight/infrastructure/document_chunker/page_window.py:41-63 | no position between the first start and the last end of a chain is outside every window |
| `PageWindowLaws.PieceIsExact` | src/document_insight/infrastructure/document_chunker/page_window.py:48-62 | what is emitted for a window is the exact, trimmed slice of the page at the reported offsets |
| `PageWindowLaws.PageChunkExact` | src/document_insight/infrastructure/document_chunker/page_window.py:25-63 | a chunk of a raw page quotes that page at its offsets and holds at most max_chars characters |
| `PageWindowLaws.ChunksAreExactCitations` | src/document_insight/infrastructure/document_chunker/page_window.py:23-63 | for every text, text[start:end] of every chunk equals its text, which is nonempty, trimmed, free of form feeds and at most max_chars long; its page is one plus the form feeds before it; ordinals count from zero |
| `PageWindowLaws.ChunksAreOrdered` | src/document_insight/infrastructure/document_chunker/page_window.py:23-63 | both offsets never decrease over the chunks of the whole document |
| `PageWindowLaws.ChunksCoverTheText` | src/document_insight/infrastructure/document_chunker/page_window.py:23-79 | every visible character of the document lies inside at least one chunk, for every overlap below max_chars |
| `PyText.SplitSlice` | src/document_insight/infrastructure/document_chunker/page_window.py:25-28 | each form-feed page is an exact slice of the text at its running start |
| `PyText.SplitCount` | src/document_insight/infrastructure/document_chunker/page_window.py:27-34 | as many form feeds precede a page as there are pages before it |
| `Jobs.JobRepository.Claim` | src/document_insight/infrastructure/job/repository.py:70-105 | only a queued job is claimed; the claim starts it and counts one attempt, and every other row stays |
| `Jobs.JobRepository.Fail` | src/document_insight/infrastructure/job/repository.py:107-126 | the unguarded failure write: status, code, category, reason and finish time of that row alone |
| `Jobs.JobRepository.MarkReady` | src/document_insight/infrastructure/job/repository.py:128-134 | the unguarded completion write of that row alone |
| `Jobs.JobRepository.Retry` | src/document_insight/infrastructure/job/repository.py:136-158 | the unguarded retry write: queued again with the given attempt count and time of the next attempt |
| `Jobs.JobRepository.MarkEnqueued` | src/document_insight/infrastructure/job/repository.py:64-68 | only the publication time of a row changes |
| `Jobs.JobRepository.ListRequeueCandidates` | src/document_insight/infrastructure/job/repository.py:160-198 | the oldest recoverable jobs, at most the limit, in order, each once |
| `Jobs.JobRepository.PrepareForRequeue` | src/document_insight/infrastructure/job/repository.py:200-238 | a job still recoverable is queued for publication; anything else is left alone |
| `Jobs.JobRepository.FailStaleExhausted` | src/document_insight/infrastructure/job/repository.py:240-260 | exactly the stale jobs without attempts left fail, and one version is returned for each failed row, even when rows share a version |
| `Jobs.BackoffIsBounded` | src/document_insight/application/processing/retry.py:39-73 | for every configuration with a multiplier of at least one and a jitter factor of at most one, and every draw, the wait stays within the jitter's fraction of its base; the base never shrinks with later attempts and never exceeds the cap |
| `Jobs.DefaultBackoffIsBounded` | src/document_insight/application/processing/retry.py:31-36 | under the default constants every wait lies between 1.5 and 75 seconds |
| `Jobs.DefaultBackoffs` | src/document_insight/application/processing/retry.py:31-52 | under the default constants the waits before jitter are 2, 4, 8, 16, 32 and from then on 60 seconds |
| `Jobs.GrowthIsExponential` | src/document_insight/application/processing/retry.py:39-52 | the backoff grows by the multiplier with each attempt |
| `Jobs.TransientFailureWaits` | src/document_insight/application/processing/retry.py:145-180 | a transient failure with attempts left queues the job again, counts one attempt and makes it due after its capped exponential backoff, give or take the jitter's fraction; without attempts left the job fails for good |
| `Jobs.FirstRetryIsDueAfterFourSeconds` | src/document_insight/application/processing/retry.py:39-73 | a first delivery that fails transiently under the defaults and without jitter is due exactly four seconds later |
| `Jobs.RetryIsRecoveredWhenDue` | src/document_insight/infrastructure/job/repository.py:160-238 | while its publication is recent, such a retry is recoverable from its due time on and not before |
| `Reconciliation.ProcessingJobReconciler.Reconcile` | src/document_insight/application/processing/reconciliation.py:50-103 | whatever other transactions do to the table between those of the pass: exhausted rows and their versions fail and are counted row by row, and each listed candidate that is still recoverable when its turn comes is prepared, published when the queue takes it, marked and counted |
| `Reconciliation.UndisturbedPass` | src/document_insight/application/processing/reconciliation.py:67-88 | without interference the pass recovers exactly the listed candidates and publishes exactly those the queue takes |
| `Reconciliation.PublishedOnce` | src/document_insight/application/processing/reconciliation.py:67-88 | under any interference no job is published twice in a pass, and only listed ones are |
| `Reconciliation.ProcessingJobReconciler.RecoverOne` | src/document_insight/application/processing/reconciliation.py:68-88 | one candidate in a table that may have changed since it was listed and may change again before its publication is recorded: prepared only if still recoverable, marked only when the queue took it |
| `Reconciliation.OverdueIsSeen` | src/document_insight/application/processing/reconciliation.py:52-65 | every queued or processing job past the stale threshold is either exhausted or a candidate, never both |
| `Reconciliation.TerminalIsLeftAlone` | src/document_insight/application/processing/reconciliation.py:52-65 | a failed or finished job is never failed again and never a candidate |
| `Reconciliation.PassResolvesOverdueJobs` | src/document_insight/application/processing/reconciliation.py:50-88 | if the candidates fit the batch, one pass fails or requeues every overdue job, and one that is recovered but not published is a candidate of every later pass |
| `Reconciliation.PassTakesTheOldest` | src/document_insight/infrastructure/job/repository.py:160-198 | a bounded pass never passes over an older candidate for a younger one |
| `Reconciliation.PassTouchesIff` | src/document_insight/application/processing/reconciliation.py:50-88 | a job is exhausted or a candidate of a pass if and only if it is overdue (unpublished, published or started too long ago) or queued with a retry that is due; it is given up exactly without attempts left |
| `Reconciliation.PassLeavesTheRest` | src/document_insight/application/processing/reconciliation.py:50-88 | every other job comes out of a pass unchanged: freshly published work, a retry not yet due, a worker still in time, a finished job |
| `Reconciliation.ExactlyExhaustedVersionsFail` | src/document_insight/application/processing/reconciliation.py:50-65 | a pass fails exactly the versions of the jobs that are stale without attempts left |
| `Embedding.EmbedChunks` | src/document_insight/application/processing/service.py:378-400 | the batch loop returns what batching by offset specifies, and fails when any batch fails or returns a wrong number of vectors |
| `Embedding.BatchingIsInvisible` | src/document_insight/application/processing/service.py:391-400 | with a pointwise embedder every chunk gets the vector of its own text, whatever the batch size |
| `Embedding.AllOrNothing` | src/document_insight/application/processing/service.py:383-400 | with any provider a success holds one embedding for every chunk, in order |
| `Embedding.EmbedsSliceBySlice` | src/document_insight/application/processing/service.py:378-400 | the provider is asked once for each slice of the texts in order, and the result is exactly its answers one after the other, or the first error |
| `Embedding.SlicesAreFull` | src/document_insight/application/processing/service.py:383-390 | every slice but the last holds exactly the batch size, the last at most that, and together they are the texts |
| `ProcessingService.ProcessingService.Process` | src/document_insight/application/processing/service.py:111-376 | one delivery is a legal run of the protocol; it leaves a queued job READY exactly when its profile resolves, every provider it still needs succeeds and a checkpoint was missing, and then the stored chunks are the chunker's output and each has its own vector; a failing stage fails job and version with its code, and a failing embedding or a resume with both checkpoints set leaves a retry that is due only after its backoff |
| `ProcessingService.ProcessingService.RejectProfile` | src/document_insight/application/processing/service.py:131-174 | a missing profile or generation, or an unresolvable profile, fails the job with its code and reason and leaves the version's status alone |
| `ProcessingService.ProcessingService.ChunkStage` | src/document_insight/application/processing/service.py:285-308 | the chunk transaction stores the chunker's output once and sets its checkpoint |
| `ProcessingService.ProcessingService.EmbedStage` | src/document_insight/application/processing/service.py:317-363 | on success the store gains exactly the batched vectors of the listed chunks and the checkpoint, unless it was set already; on failure the store stays and the job is retried after its backoff, or fails without attempts left |
| `ProcessingService.ProcessingService.LastStage` | src/document_insight/application/processing/service.py:375-376 | with a bound generation id version, generation and job become ready together; without one nothing is stored and the job is retried after its backoff, or fails without attempts left |
| `IngestionLaws.JobInvariantHolds` | src/document_insight/infrastructure/job/repository.py:70-158 | attempt_count is claims plus retries, a queued job never exceeds the limit, and at the limit it has been retried at least once: kept by every step |
| `IngestionLaws.StepExtends` | src/document_insight/application/processing/service.py:236-376 | no step of any worker changes stored text, or chunks and vectors behind a checkpoint |
| `IngestionLaws.DataInvariantHolds` | src/document_insight/application/processing/service.py:200-376 | every step keeps stored chunks and vectors equal to what the text determines |
| `IngestionLaws.RunKeepsInvariant` | src/document_insight/application/processing/service.py:111-419 | all invariants hold after every interleaving of deliveries, failures, crashes, late workers and reconciler passes |
| `IngestionLaws.ClaimsAreBounded` | src/document_insight/application/processing/retry.py:75-77 | in every interleaving a job is claimed at most max_attempts times and its counter is claims plus retries |
| `IngestionLaws.ReadyGenerationIsComplete` | src/document_insight/application/processing/service.py:410-417 | in every interleaving a ready generation has both checkpoints, exactly the chunker's output on the stored text, and each chunk's own vector |
| `IngestionLaws.CheckpointsAreFinal` | src/document_insight/infrastructure/index_generation/repository.py:52-78 | what a checkpoint covers is never changed by any later run |
| `IngestionLaws.FailureSchedulesRetry` | src/document_insight/application/processing/retry.py:145-180 | in every state a transient failure schedules the next attempt after its backoff, or fails the job when none is left |
| `IngestionLaws.EarlyPassLeavesTheRetry` | src/document_insight/application/processing/reconciliation.py:67-88 | a pass within the shortest such wait does not recover a job published after the stale threshold |
| `TerminalStates.TerminalIsFinalWhenTimely` | src/document_insight/infrastructure/job/repository.py:107-158 | READY and FAILED are final in every run whose workers write within a lifetime of at most the stale threshold |
| `TerminalStates.FailedIsFinalIff` | src/document_insight/infrastructure/job/repository.py:107-158 | over all runs whose workers write within a given lifetime of their claim, FAILED is final if and only if that lifetime is at most the stale threshold |
| `TerminalStates.ReadyIsFinalIff` | src/document_insight/infrastructure/job/repository.py:107-158 | READY is final if and only if that holds or there is only a single attempt |
| `TerminalStates.LateWorkerUndoesReady` | src/document_insight/infrastructure/job/repository.py:136-158 | with a longer lifetime and at least two attempts some run turns READY into queued or failed: a late worker's transient failure after another one finished |
| `TerminalStates.LateWorkerUndoesFailed` | src/document_insight/infrastructure/job/repository.py:128-134 | with a longer lifetime some run turns FAILED into READY, for every attempt limit |
| `IngestionProgress.DeliveryFinishesIffACheckpointIsMissing` | src/document_insight/application/processing/service.py:285-376 | in every reachable state one faultless delivery finishes a queued job if and only if one of its checkpoints is missing |
| `IngestionProgress.FullResumeNeverCompletes` | src/document_insight/application/processing/service.py:375-376 | in no reachable state can a worker that claimed with both checkpoints set complete the job |
| `IngestionProgress.ReadyIsReachableIff` | src/document_insight/application/processing/service.py:111-376 | in every reachable state some continuation makes the job READY if and only if it is READY, or some live worker read a checkpoint as missing, or a checkpoint is missing and the job can still be claimed |
| `IngestionProgress.NoWayBack` | src/document_insight/application/processing/service.py:111-376 | otherwise no continuation whatever makes it READY |
| `IngestionProgress.LostLastStepStrandsTheJob` | src/document_insight/application/processing/service.py:361-376 | losing a worker between the embedding checkpoint and completion leaves a queued job that no continuation whatever makes READY |
| `IngestionProgress.CleanDeliveryFinishes` | src/document_insight/application/processing/service.py:111-376 | a delivery whose steps all succeed makes a job with a missing checkpoint READY |
| `AttemptBudget.ClaimBoundIsReached` | src/document_insight/application/processing/retry.py:75-77 | the bound on claims is exact: for every limit some run uses it up |
| `AttemptBudget.TransientFailuresCountTwice` | src/document_insight/application/processing/retry.py:145-180 | a job whose every run fails transiently gets max_attempts / 2 + 1 runs, because both the claim and the retry count, whatever deliveries and reconciler passes there are as long as none finds a stale worker; three runs under the defaults |
| `AttemptBudget.TransientFailuresExhaust` | src/document_insight/application/processing/retry.py:145-180 | such a run that ends in FAILED exists for every limit |
| `RateLimiter.QueryRateLimiter.Acquire` | src/document_insight/infrastructure/security/query_rate_limiter.py:32-72 | one script call: the count and expiry of that key alone change, and the call is admitted exactly within the limit |
| `RateLimiter.EachUserHasTheirOwnWindows` | src/document_insight/infrastructure/security/query_rate_limiter.py:32-72 | whatever other users do, a call is admitted exactly when fewer than limit calls precede it in its own window |
| `RateLimiter.WindowAdmitsUpToTheLimit` | src/document_insight/infrastructure/security/query_rate_limiter.py:33-43 | a window opened by a first call admits exactly min(calls, limit) |
| `RateLimiter.SparseCallsAreAdmitted` | src/document_insight/infrastructure/security/query_rate_limiter.py:33-43 | a call is admitted whenever fewer than limit calls of its user lie in the window length before it |
| `RateLimiter.SlidingWindowBound` | src/document_insight/infrastructure/security/query_rate_limiter.py:33-43 | any interval one window long, both ends included, admits at most 2·limit − 1 calls of a user |
| `RateLimiter.SlidingBoundIsReached` | src/document_insight/infrastructure/security/query_rate_limiter.py:33-43 | that bound is reached for every limit |
| `RateLimiter.AdvertisedDelay` | src/document_insight/infrastructure/security/query_rate_limiter.py:37-43 | the delay is the remaining time to the nearest second, at least one second and at most the window; waiting it outlasts the counter if and only if less than a second remained or rounding did not shorten it |
| `Fusion.Fuse` | src/document_insight/application/query/service.py:309-341 | the two dictionary loops and the sort give the declarative fusion: the union of the lists, each chunk once, by total score, ties by id |
| `Fusion.TallyList` | src/document_insight/application/query/service.py:319-324 | one ranked list adds one reciprocal term for each of its positions and the latest row of each chunk |
| `Fusion.SortIds` | src/document_insight/application/query/service.py:325-341 | the sort returns exactly the keys, each once, by descending total and ascending id |
| `FusionLaws.FusionIsDetermined` | src/document_insight/application/query/service.py:309-341 | fusion leaves no choice, holds exactly the union of the lists and no chunk twice |
| `FusionLaws.FusionIgnoresListOrder` | src/document_insight/application/query/service.py:319-341 | reordering the ranked lists leaves the fused order of ids unchanged |
| `FusionLaws.UnanimousRankingWins` | src/document_insight/application/query/service.py:322-341 | a chunk ranked ahead of another in every list that holds the other, with equal boost, comes first |
| `FusionLaws.BoostOnlyMovesClasses` | src/document_insight/application/query/service.py:325-341 | the entity boost adds and drops nothing and keeps the order within the boosted and within the unboosted chunks |
| `FusionWeights.FusedOrderIsDecided` | src/document_insight/application/query/service.py:309-341 | of two fused chunks the one with the larger sum comes first, ties by id; the sum takes 1 / (k + rank) from each list that holds the chunk, and the boost for a matched version (no list holds a chunk twice, and its rows agree on its version) |
| `FusionWeights.ScoreIsTheSum` | src/document_insight/application/query/service.py:319-324 | a chunk's score is the sum of one reciprocal of k plus its rank for each list that holds it, for lists without repeats |
| `FusionWeights.ContributionsAreUnique` | src/document_insight/application/query/service.py:319-324 | these contributions are determined by the lists and k |
| `FusionWeights.ManyListsBeatOne` | src/document_insight/application/query/service.py:322-341 | at equal boost a chunk held at rank r by each of n lists comes ahead of one held once, at rank s, whenever n (k + s) > k + r |
| `FusionWeights.LastListSuppliesTheRow` | src/document_insight/application/query/service.py:319-324 | the row of a fused chunk is the one of the last list that holds it |
| `Query.Score` | src/document_insight/infrastructure/reranker/mistral.py:63-81 | no result exactly without a usable reply; otherwise one score in the unit interval per candidate in order: the provider's when the count fits, decreasing retained ones when it does not |
| `Query.Rerank` | src/document_insight/application/query/service.py:343-375 | the result is exactly the capped candidates with their scores, best first, ties by id; nothing for no candidates; unavailable when the reranker is |
| `Query.RerankingIsDetermined` | src/document_insight/application/query/service.py:369-375 | scores and ids leave only one reranked order |
| `Query.WrongCountKeepsTheOrder` | src/document_insight/infrastructure/reranker/mistral.py:68-76 | a response with the wrong number of scores leaves the fused order unchanged |
| `Query.Generate` | src/document_insight/infrastructure/generation/mistral.py:46-98 | the second reply counts only after invalid positions in the first; the cited ids are exactly the passages at the cited positions, counted from one, each once and in the order of their first position; otherwise the matching error |
| `Query.DedupCitesInOrder` | src/document_insight/infrastructure/generation/mistral.py:90-92 | de-duplicating the passages at the cited positions keeps each once, none else, in the order of first citation, the first one first |
| `Query.CitableIsAPrefix` | src/document_insight/application/query/service.py:198-200 | the citable passages are a prefix of the selection, cut exactly where scores fall below the citation score |
| `Query.RefusedIffNothingReaches` | src/document_insight/application/query/service.py:190-197 | the evidence threshold refuses exactly when no selected passage reaches it |
| `Query.Conclude` | src/document_insight/application/query/service.py:190-243 | every outcome with its exact condition: both refusals, ungrounded, unavailable, and the grounded answer, which cites the passages at the cited positions among those that reach the citation score |
| `Query.Cite` | src/document_insight/application/query/service.py:214-243 | none of the generator's ids is dropped, so the two guards against it never fire; each citation repeats the fields and score of its passage, and confidence is their maximum |
| `Query.Answer` | src/document_insight/application/query/service.py:168-243 | end to end from the ranked lists: fused, capped, reranked, selected and cited at the generator's positions, with the trace recorded stage by stage |
| `Query.GroundedAnswersAreSound` | src/document_insight/application/query/service.py:190-243 | a grounded answer has citations, distinct and each a selected passage at or above the citation score, and the first is the passage at the first cited position |
| `Query.CitationsAreFused` | src/document_insight/application/evaluation/executor.py:60-70 | every citation is found in the fused trace as the very chunk it quotes, so the executor's lookup never fails |
| `Anchors.Parse` | src/document_insight/application/evaluation/scoring.py:16-25 | whatever text is parsed, a result is a valid span |
| `Anchors.RoundTrip` | src/document_insight/application/evaluation/scoring.py:20-31 | parse(encode(s)) equals s for every valid span |
| `Anchors.EncodeIsInjective` | src/document_insight/application/evaluation/scoring.py:27-31 | two valid spans share an anchor only when they are equal |
| `Anchors.AnchorText` | src/document_insight/application/evaluation/scoring.py:27-31 | an anchor reads version@page:start:end |
| `Anchors.UuidTextLayout` | src/document_insight/application/evaluation/scoring.py:27-31 | the text of a UUID has its 32 base-16 digits in order, in lower case, with hyphens after 8, 12, 16 and 20 of them |
| `Anchors.DecimalPositions` | src/document_insight/application/evaluation/scoring.py:27-31 | every digit of a number stands for its power of ten |
| `Anchors.NoLeadingZero` | src/document_insight/application/evaluation/scoring.py:27-31 | and the first digit of a number above nine is not zero |
| `Anchors.SignedInt` | src/document_insight/application/evaluation/scoring.py:22-25 | an offset is read with whitespace around it and with a sign |
| `Anchors.IntNeedsDigits` | src/document_insight/application/evaluation/scoring.py:22-25 | and only digits may stand beside them |
| `Anchors.UuidRoundTrip` | src/document_insight/application/evaluation/scoring.py:25-31 | reading the canonical text of a UUID gives the UUID back |
| `Anchors.TextOrderIsNumberOrder` | src/document_insight/application/query/service.py:325-341 | the order of UUID texts, which breaks ties, is the order of the UUIDs as numbers |
| `Anchors.SpanOf` | src/document_insight/application/evaluation/executor.py:95-105 | a chunk has no span exactly without a usable page, with empty offsets or when its version is not mapped to a UUID; any span it has is valid and carries its page and offsets |
| `Anchors.StoredChunksHaveAnchors` | src/document_insight/application/evaluation/executor.py:95-105 | what the chunker stored always has an anchor, and the anchor names the slice of the text that the chunk quotes |
| `Anchors.FlattenKeepsSpans` | src/document_insight/application/evaluation/executor.py:107-120 | de-duplicating anchors over all cohorts equals de-duplicating spans in order of first appearance |
| `Anchors.FlatJoins` | src/document_insight/application/evaluation/executor.py:107-120 | the lists of the cohorts are taken one after the other |
| `ManifestCodec.StoredRoundTrip` | src/document_insight/application/evaluation/models.py:100-138 | reading a stored manifest back gives the manifest exactly when it is well formed and fails otherwise |
| `ManifestCodec.CorpusRoundTrip` | src/document_insight/application/evaluation/models.py:61-85 | a corpus survives JSON exactly when it lists a version and maps every listed one |
| `ManifestCodec.AcceptedManifest` | src/document_insight/application/evaluation/models.py:120-138 | any accepted raw input is well formed, and what the launch stores is read back as the same manifest |
| `ManifestCodec.AcceptedCorpus` | src/document_insight/application/evaluation/models.py:70-85 | any accepted corpus has distinct keys and a source for every listed version |
| `ManifestCodec.AcceptedFields` | src/document_insight/application/evaluation/models.py:120-138 | a manifest is read if and only if each of its fields is what the raw input holds under that field's key, with a fingerprint of 64 characters and no profile for a missing or empty value |
| `ManifestCodec.AcceptedCorpusFields` | src/document_insight/application/evaluation/models.py:70-85 | an accepted corpus has exactly the listed versions and, for each indexed version, the last source given for it |
| `ManifestCodec.NumbersReadLikeText` | src/document_insight/application/evaluation/models.py:76-82 | a JSON number is read as an identifier by its digits, whatever its sign |
| `ManifestCodec.StoredFields` | src/document_insight/application/evaluation/models.py:100-118 | the stored manifest holds each field under its key |
| `ManifestCodec.CorpusFields` | src/document_insight/application/evaluation/models.py:61-68 | the stored corpus holds its versions and its source mapping under their keys |
| `Scoring.RetrievalMetrics` | src/document_insight/application/evaluation/scoring.py:62-114 | no rows without labels, an error for bad K values, otherwise for each K the number of relevant ones among the first K passages over K and, for complete labels, the number of labels covered by them over all labels |
| `Scoring.ScoreCase` | src/document_insight/application/evaluation/runner.py:159-217 | a case is scored exactly when all anchors parse and the K values are usable; then the rows of each of the four stages and of each cohort of both kinds count that very list, the citation rows count distinct citations, the answer row is 1 exactly when answered equals answerable, and there are no other rows |
| `Scoring.CaseRowsMeasure` | src/document_insight/application/evaluation/runner.py:159-217 | the rows of a case are those of its four stages, its cohorts, its citations and its answer, each with numerator, denominator and ratio of what it names |
| `Scoring.RetrievalRowsMeasure` | src/document_insight/application/evaluation/scoring.py:62-114 | one ranking's rows at each K count the passages that hold half of a label, and the labels half held by a passage, among the first K |
| `Scoring.CoversIsHoldsHalf` | src/document_insight/application/evaluation/scoring.py:48-59 | comparing end points decides whether the shared positions are at least half of the label |
| `Scoring.CitedCounts` | src/document_insight/application/evaluation/scoring.py:117-158 | citation numerators and denominators count distinct citations |
| `Scoring.AggregateMetrics` | src/document_insight/application/evaluation/scoring.py:161-187 | one row per key in order of first appearance, each the exact sums of its group and their ratio |
| `Scoring.GroupCase` | src/document_insight/application/evaluation/scoring.py:165-169 | filing the metrics of one case keeps the grouping exact |
| `ScoringLaws.DeeperNeverLoses` | src/document_insight/application/evaluation/scoring.py:81-113 | relevant passages and covered labels never decrease with K and stop changing past the list's length |
| `ScoringLaws.FullRecall` | src/document_insight/application/evaluation/scoring.py:98-113 | recall is complete exactly when every label is covered |
| `ScoringLaws.NotThreeHalves` | src/document_insight/application/evaluation/scoring.py:48-59 | three disjoint passages cannot each cover half of one label |
| `ScoringLaws.DisjointRelevanceBound` | src/document_insight/application/evaluation/scoring.py:83-85 | for pairwise disjoint passages the relevant count is at most twice the number of labels |
| `ScoringLaws.HalvesAreBothRelevant` | src/document_insight/application/evaluation/scoring.py:48-59 | that factor two is reached by the two halves of any label of even length |
| `ScoringLaws.CaseRowsAreDistinct` | src/document_insight/application/evaluation/runner.py:159-217 | one case yields pairwise distinct keys, and every row is a proper fraction with a positive denominator |
| `ScoringLaws.SoundIsAFraction` | src/document_insight/application/evaluation/scoring.py:34-45 | such a row's value lies in the unit interval and is one exactly when numerator and denominator agree |
| `ScoringLaws.RepeatedCitationsCountOnce` | src/document_insight/application/evaluation/scoring.py:126-157 | repeating or reordering citations changes neither citation recall nor citation precision, numerator and denominator |
| `MicroAveraging.TotalsAreConserved` | src/document_insight/application/evaluation/scoring.py:165-187 | the rows of an aggregate add up to the totals of all cases, numerators and denominators |
| `MicroAveraging.CaseCountIsGroupSize` | src/document_insight/application/evaluation/runner.py:110-113 | the reported case count is the number of values averaged |
| `MicroAveraging.AggregationIgnoresCaseOrder` | src/document_insight/application/evaluation/scoring.py:165-187 | reordering the cases changes at most the order of the rows |
| `MicroAveraging.AverageIsBetween` | src/document_insight/application/evaluation/scoring.py:171-186 | a micro-average lies between the smallest and largest averaged value |
| `Evaluation.AdmittedIffAdmissible` | src/document_insight/application/evaluation/service.py:153-224 | a command is admitted exactly when it is admissible: mode, one policy each, K values, suite, manifest, a run that fits the suite, existing policies and read cohorts; otherwise the first failing check is reported |
| `Evaluation.AdmissibleIffFaultless` | src/document_insight/application/evaluation/service.py:155-199 | a command is admissible exactly when none of the checks finds a fault in it |
| `Evaluation.AdmissibleIffSound` | src/document_insight/application/evaluation/service.py:153-224 | admissible means a sound comparison: the suite's own documents or one separate copy of each, two different policies or two ingestion policies under one query policy that reads both, everything existing and 1 to 100 distinct K values |
| `Evaluation.AdmittedRunFits` | src/document_insight/application/evaluation/service.py:153-253 | an admitted run fits its suite in all respects its mode demands and starts pending without results |
| `Evaluation.CopiesAreOneToOne` | src/document_insight/application/evaluation/service.py:189-199 | the set and length checks of an ingestion evaluation leave only a bijection of copies onto sources, without repeats or overlap |
| `Evaluation.WorkIsEveryPairOnce` | src/document_insight/application/evaluation/runner.py:65-69 | the runner's work holds every pair of a case and a variant once |
| `Evaluation.WorkInOrder` | src/document_insight/application/evaluation/runner.py:65-69 | case by case, the baseline before the candidate |
| `Evaluation.EvaluationService.LaunchRun` | src/document_insight/application/evaluation/service.py:153-253 | a launch succeeds exactly on an admissible command and then inserts that command's pending run and nothing else; otherwise the tables stay and the error is the first check that fails |
| `Evaluation.EvaluationService.ClaimRun` | src/document_insight/infrastructure/evaluation_run/repository.py:72-82 | only a pending run is claimed |
| `Evaluation.EvaluationService.TouchHeartbeat` | src/document_insight/infrastructure/evaluation_run/repository.py:98-103 | only a running run's heartbeat moves |
| `Evaluation.EvaluationService.FailStaleRunning` | src/document_insight/infrastructure/evaluation_run/repository.py:105-119 | exactly the running runs with an older heartbeat fail, and they are returned |
| `Evaluation.EvaluationService.UpdateRunStatus` | src/document_insight/infrastructure/evaluation_run/repository.py:132-150 | completing and failing take effect on a running run only |
| `Evaluation.EvaluationService.AddCaseResult` | src/document_insight/infrastructure/evaluation_case_result/repository.py:23-55 | one result is appended to its run |
| `Evaluation.EvaluationService.ReviewAnswerQuality` | src/document_insight/application/evaluation/service.py:468-486 | exactly under the review's conditions the given score is stored on the unrated result; rated results and all others stay |
| `Evaluation.ReviewStoresTheScore` | src/document_insight/application/evaluation/service.py:468-486 | a review is accepted exactly for a score in the unit interval, a short note and an unrated result of a completed, undecided run, and then exactly that score stands on that result and nothing else differs; otherwise the error names what is wrong |
| `Evaluation.EvaluationService.CreateGateReview` | src/document_insight/application/evaluation/service.py:403-461 | a decision is recorded exactly under the gate's conditions, with the reported error otherwise |
| `Evaluation.DecisionIsRecorded` | src/document_insight/application/evaluation/service.py:403-461 | a decision is accepted exactly with a valid verdict and reason on a completed, undecided run with every result and, to approve, every rating; it records whether the verdict was approve; otherwise the error names what is wrong |
| `EvaluationRunner.EvaluationRunner.Run` | src/document_insight/application/evaluation/runner.py:44-134 | an unclaimable run is left alone; undisturbed, a run completes exactly when everything succeeds; even raced it only completes with every piece scored and the averages of exactly those cases published; always a legal run of the system |
| `EvaluationRunner.EvaluationRunner.RunCase` | src/document_insight/application/evaluation/runner.py:65-100 | both variants of a case are executed, scored and saved in order, or the loop stops at the first failure |
| `EvaluationRunner.EvaluationRunner.RunPiece` | src/document_insight/application/evaluation/runner.py:70-100 | one execution that works and can be scored is saved as one unrated result, followed by the heartbeat; otherwise the tables stay as they are |
| `EvaluationRunner.Publish` | src/document_insight/application/evaluation/runner.py:101-122 | the published rows average the scored cases and each counts the values behind it |
| `EvaluationLaws.StepKeepsGate` | src/document_insight/application/evaluation/service.py:255-486 | every event keeps the table invariants and undoes no completed run, rating or decision |
| `EvaluationLaws.PlayKeepsGate` | src/document_insight/application/evaluation/service.py:255-486 | so does every interleaving |
| `EvaluationLaws.ClaimedAtMostOnce` | src/document_insight/infrastructure/evaluation_run/repository.py:72-82 | however many deliveries there are, a run is claimed at most once |
| `EvaluationLaws.TerminalRunsAreFinal` | src/document_insight/infrastructure/evaluation_run/repository.py:105-150 | COMPLETED and FAILED never change, and the results of a completed run keep their cases and variants |
| `EvaluationLaws.CompletedRunsPassTheGate` | src/document_insight/application/evaluation/service.py:430-449 | a completed run has exactly one result per case and variant, so the gate never rejects it as incomplete and records a decision exactly under the remaining conditions: verdict, reason, no earlier decision and, to approve, every candidate answer rated |
| `EvaluationLaws.RatedStep` | src/document_insight/infrastructure/evaluation_case_result/repository.py:65-73 | rating changes no existing score and keeps complete ratings complete |
| `EvaluationLaws.RatingIsStored` | src/document_insight/application/evaluation/service.py:468-486 | an accepted rating stands with the given score on its result in the next state |
| `EvaluationLaws.HeartbeatDecides` | src/document_insight/infrastructure/evaluation_run/repository.py:98-119 | a sweep fails a running run exactly when its heartbeat is older than the bound, and a touch sets the heartbeat |
| `EvaluationLaws.RunsFitTheirSuite` | src/document_insight/application/evaluation/service.py:153-253 | in every reachable state every run has its suite's fingerprint and tenant and compares what its mode asks for over the suite's documents or one copy of each |
| `Activation.ActiveProfileRepository.Activate` | src/document_insight/infrastructure/active_profile/repository.py:67-82 | the pointer moves to the next revision only at the expected revision |
| `Activation.ActiveProfileRepository.CreateEvaluationIngestion` | src/document_insight/infrastructure/active_profile/repository.py:84-95 | inserts a dedicated scope's row at revision 1 and never a platform row |
| `Activation.ProfileApprovalService.Activate` | src/document_insight/application/configuration/approval.py:194-244 | a switch of either kind succeeds exactly with a reason, at the expected revision of another profile, with approved evidence for this pair and with all required indexes read; it then moves that pointer alone by one revision and appends one linked record; otherwise nothing changes |
| `Activation.ProfileApprovalService.SelectEvaluationIngestion` | src/document_insight/application/configuration/approval.py:267-314 | succeeds exactly for the test tenant, an available profile and the expected revision (0 for the first time), moves that tenant's pointer alone and records what its uploads used before; otherwise nothing changes |
| `Activation.SwitchSucceedsIff` | src/document_insight/application/configuration/approval.py:194-265 | the exact conditions of a platform switch, query and ingestion, on the rows themselves, and the rows after it |
| `Activation.SelectionSucceedsIff` | src/document_insight/application/configuration/approval.py:267-314 | the exact conditions of a test tenant's selection and the rows after it |
| `Activation.RefusalsExplain` | src/document_insight/application/configuration/approval.py:194-265 | a refused switch names what is wrong: the reason, the revision, the same profile, missing evidence, an unavailable query profile or an unread index, in this order |
| `Activation.SelectionRefusalsExplain` | src/document_insight/application/configuration/approval.py:267-314 | so does a refused selection |
| `Activation.ProfileApprovalService.RequireApprovedEvaluation` | src/document_insight/application/configuration/approval.py:246-265 | found exactly when some completed, approved query run compares these two profiles |
| `Activation.ProfileApprovalService.RequireApprovedIngestionEvaluation` | src/document_insight/application/configuration/approval.py:316-349 | found exactly when some completed, approved run of the test tenant compares these ingestion profiles under the active query profile |
| `Activation.ProfileApprovalService.RequireCohorts` | src/document_insight/application/configuration/approval.py:393-405 | passes exactly when every listed ingestion profile exists, is usable and is read by the query profile |
| `ActivationLaws.StepKeepsInvariant` | src/document_insight/application/configuration/approval.py:194-349 | every event keeps the tables, the coverage and the justified, replayable audit log |
| `ActivationLaws.PlatformSwitchesAreJustified` | src/document_insight/application/configuration/approval.py:194-265 | in every run every platform switch rests on an approved, complete and fully rated comparison of exactly the new profile with the profile then active, and that evidence still stands |
| `ActivationLaws.EvidenceStays` | src/document_insight/application/evaluation/service.py:403-486 | no step undoes the evidence of a switch |
| `ActivationLaws.ActiveCohortsAreRead` | src/document_insight/application/configuration/approval.py:217-231 | the active query profile always reads the active ingestion profile and every index ready at the last query switch |
| `ActivationLaws.OnlyLateGenerationsHide` | src/document_insight/application/configuration/approval.py:224-231 | after a query switch every ready index stays readable if and only if none becomes ready under an unread profile |
| `ActivationLaws.QuerySwitchReadsAllReady` | src/document_insight/application/configuration/approval.py:224-231 | a query switch makes every ready index readable |
| `ActivationLaws.TestUploadsCanBeUnread` | src/document_insight/application/configuration/approval.py:280-314 | a run in which a test tenant's selection yields a ready index that the active query profile does not read |
| `ActivationLaws.AuditExplainsPointers` | migrations/versions/20260921_0008_create_capability_profiles.py:397-412 | from the seeded rows on, replaying the log gives exactly the pointers, with linked ids and consecutive revisions, and a pointer's revision counts its records |
| `ActivationLaws.InitialInvariant` | migrations/versions/20260921_0009_seed_query_profiles.py:202-216 | the seeded pointers and records satisfy the invariant |
| `ActivationLaws.OneSwitchPerRevision` | src/document_insight/application/configuration/approval.py:194-314 | of all moves of one pointer that expect the same revision, platform switches as well as the test tenant's selections including the first, at most one ever succeeds; every later one meets the conflict |
| `ActivationLaws.ApprovalLetsTheSwitchThrough` | src/document_insight/application/configuration/approval.py:246-265 | the evidence is also enough: from any completed, fully rated, undecided comparison of the active query profile with a usable candidate that reads everything ready or active, approving and switching is legal and moves the pointer to the candidate |
| `ActivationLaws.ApprovalLetsTheIngestionSwitchThrough` | src/document_insight/application/configuration/approval.py:207-233 | so it is for an ingestion switch: approving the test tenant's comparison of the active ingestion profile with a candidate that the active query profile reads, then switching, moves the ingestion pointer to the candidate |
| `ActivationLaws.SwitchMovesIffAllowed` | src/document_insight/application/configuration/approval.py:194-244 | in every state a switch event moves its pointer exactly when it is allowed and otherwise changes no row |
| `ActivationLaws.SelectMovesIffAllowed` | src/document_insight/application/configuration/approval.py:267-314 | so does a selection |
| `ActivationLaws.IngestionEvidencePairsCopies` | src/document_insight/application/evaluation/service.py:189-199 | the comparison behind an ingestion switch ran on one distinct copy of every source |

## Left out

- HTTP routes, the admin panel, logging, metrics and authentication: presentation and I/O.
- SQL full-text ranking, vector distance, row-level security: the ranked lists are inputs.
- Object storage, PDF, OCR and NER internals, the entity rows and the language tag of a chunk: only the outcome of a stage is modelled, and the NER checkpoint.
- A claim whose version row is missing leaves the job processing (src/document_insight/application/processing/service.py:159-160); versions always exist in the model.
- One system holds one job: version, generation and job are in one-to-one correspondence, so jobs interact only through the reconciler's batch, which `Reconciliation` models on the whole table with arbitrary interference.
- The permanent branch of the general failure handler (src/document_insight/application/processing/service.py:184-190): the only errors it is for are caught in the parsing stage.
- Session, isolation and commit behaviour: see the idealisations above.
- Question preparation, authorization scope, cohort retrieval and the entity list of a query result: the pipeline is modelled from the ranked lists on.
- Query.Generate: how internal citation markers and outer whitespace are removed from the answer text is not modelled; the text that remains is part of the reply.
- Anchors.Parse: the UUID forms with `urn:` or braces, underscores in numbers, digits outside ASCII and lone surrogates are not modelled; canonical text uses none of them.
- ManifestCodec.StoredRoundTrip: JSON floats are not modelled, and the database's reordering of object keys is not; a key lookup does not depend on it.
- Scoring.ScoreCase: a cohort is identified by its UUID rather than by that UUID's text, and the definition text of a metric is dropped; both are determined by what is kept.
- Suite editing, case templates, SHA-256 fingerprints, secret checks and Pydantic schemas: a suite is valid when its cases and versions are distinct and nonempty, a fingerprint is a text, and whether a bundle's capabilities validate is a parameter.
- Every stored case result is completed and every stored run has a valid comparison and a tenant, as the only writers of these columns make them; the columns themselves are not modelled.
- The later data migration that moves the query pointer with its own audit record: the model starts from the seeded rows.
- The load benchmark, document listing and activation of document versions: easy properties only.
