# Verification model of the CBIR platform

A Dafny model of the parts of this image-retrieval platform whose correctness is
hard to see from the code, with proofs over all inputs, all runs or all
interleavings:

* **Ingestion.** Jobs travel from the catalog through a Redis list to a single
  worker. An attempt downloads, embeds, deduplicates by perceptual hash, upserts
  a vector, marks the row and bumps the tenant's index version. Rows roll back,
  vectors and counters do not. Proved: the indexed set stays separated, rows are
  never ahead of vectors, exactly which steps orphan a duplicate, redelivery is
  harmless, and the queue drains with bounded retries and backoff.
* **Search.** The query path with its embedding cache and versioned result cache.
  Proved: paging loses nothing, precise mode without a modifier is the fast path,
  the caches are invisible between index writes, and answers are fresh under every
  interleaving with the writers.
* **Credentials.** Keys, rotation, short-lived tokens, the revocation list and the
  fixed-window limiter on one clock. Proved: revocation is final exactly as long as
  committing it and signing in an exchange take a minute together, how long tokens outlive their keys, sound rotation lineages,
  and the rate bound over whole runs.
* **Algorithms.** Batch embedding as a pointwise map, and the nDCG gate.

Services that mutate state are classes whose methods are proved equal to a
function of the old state; the theorems about runs are about those functions, and
the `…Meaning` modules say what the functions compute in terms of the data alone.
Time is in integer milliseconds. Scores are exact reals. The square root, the
six-digit rounding, SHA-256, UTF-8, the embedder and the nDCG discount are
parameters with only the properties named in each lemma.

`dafny verify dfyconfig.toml` checks the whole project.

| files | component |
|---|---|
| `Common`, `Sorting`, `VectorMath` | shared vocabulary, stable sort, vector algebra |
| `PerceptualHash`, `Dedup` | average hash, Hamming distance, duplicate scan |
| `VectorStore`, `Reranking` | vector-store contract, rerank stage |
| `SearchPipeline`, `SearchMeaning`, `SearchService`, `CacheFreshness`, `FreshnessRefinement`, `ServedAnswers`, `HashWitness` | query-service |
| `IndexVersions` | the Redis counters worker and query-service share |
| `Ingestion`, `IngestionMeaning`, `Runner`, `RunnerMeaning`, `Catalog` | one attempt, the loop, the producer |
| `PipelineRuns`, `PipelineStore`, `PipelineCover`, `PipelineRedelivery` | whole ingestion runs |
| `RateLimiter`, `ApiKeys`, `Credentials`, `CredentialMeaning` | auth-service |
| `CredentialRuns`, `RevocationLimit`, `KeyLineage`, `CredentialRates` | whole credential runs |
| `BatchEmbedding`, `RetrievalQuality` | ai-service batching, retrieval gate |

## Where code and documentation disagree

The model follows the code.

* The runner's docstring (`workers/ingestion-worker/ingestion_worker/runner.py:3-4`)
  says a job leaves the queue only once processed; BRPOP (`main.py:93`) removes it
  first. Conservation is therefore stated per completed turn.
* The cache's docstring (`services/query-service/query_service/infrastructure/cache/__init__.py:4-8`)
  says deletes bump the index version; nothing does, and a deleted item's vector
  stays. Nothing is claimed about deleted items vanishing from search.
* An indexed item can be confirmed again, because `mark_uploaded_and_queued` checks
  no status. `StepAndCover` says exactly what that breaks.
* A tenant's metadata key may overwrite `item_id` or `external_id` in the search
  payload; `BuildPayload` keeps that.

## Model

| member | source | states |
|---|---|---|
| `PerceptualHash.AverageHash` | ai-service/ai_service/infrastructure/embedding/phash.py:35-40 | the shift-and-or loop over side² thresholded pixels prints a string that parses back, base 16, to the number whose binary digits are the pixels |
| `PerceptualHash.HashRoundTrip` | ai-service/ai_service/infrastructure/embedding/phash.py:36-40 | any bit sequence is recovered, bit for bit, from its printed hash |
| `PerceptualHash.HashWidth` | ai-service/ai_service/infrastructure/embedding/phash.py:39-40 | 4n bits print as exactly n hexadecimal digits, leading zeros included |
| `PerceptualHash.PaddedLength` | ai-service/ai_service/infrastructure/embedding/phash.py:40 | zero padding gives exactly the asked width when the value fits, and never truncates |
| `PerceptualHash.HammingCountsPixels` | workers/ingestion-worker/ingestion_worker/dedup.py:6-9 | xor and popcount of two printed hashes is the number of pixels in which the two pictures differ, at most the pixel count |
| `PerceptualHash.HammingIsMetric` | workers/ingestion-worker/ingestion_worker/dedup.py:6-9 | on hexadecimal strings the distance is symmetric, zero exactly for equal values, and satisfies the triangle inequality |
| `Dedup.FindClosest` | workers/ingestion-worker/ingestion_worker/dedup.py:12-26 | the loop with running best and early break returns what the reference scan returns, or the error of the first unparsable hash it reaches |
| `Dedup.FindDuplicateMeaning` | workers/ingestion-worker/ingestion_worker/dedup.py:12-26 | None exactly if every compared entry is farther than the threshold; otherwise the first among the closest; an error exactly if the scan comes to a non-hexadecimal hash before an exact match |
| `Dedup.BlankIsPassedOver` | workers/ingestion-worker/ingestion_worker/dedup.py:19-20 | an item with a blank hash makes no difference to the answer |
| `VectorMath.CauchySchwarz` | shared/common-libs/cbir_common/vectordb/__init__.py:128-134 | the squared dot product of two vectors (shorter one deciding the length) is at most the product of their sums of squares |
| `VectorMath.UnitDotBounded` | ai-service/ai_service/infrastructure/reranking/__init__.py:52-54 | the dot product of two normalised vectors lies in [-1, 1], zero vectors included |
| `VectorMath.UnitDotIsCosine` | shared/common-libs/cbir_common/vectordb/__init__.py:128-134 | normalise-then-multiply (reranker) and multiply-then-divide (store) give the same score |
| `Sorting.SortIsStable` | shared/common-libs/cbir_common/vectordb/__init__.py:108 | the descending sort is ordered, a permutation, and keeps the order within each score |
| `Sorting.StableSortIsUnique` | ai-service/ai_service/application/use_cases/reranking.py:30 | these properties determine the sorted list |
| `VectorStore.CollectionNameInjective` | shared/common-libs/cbir_common/vectordb/__init__.py:24-27 | on canonical UUIDs two tenants share a collection name exactly if they are equal |
| `VectorStore.PutMeaning` | shared/common-libs/cbir_common/vectordb/__init__.py:84-85 | an upsert makes its record the only one under its id and keeps every other record |
| `VectorStore.InMemoryVectorStore.Upsert` | shared/common-libs/cbir_common/vectordb/__init__.py:82-85 | the tenant's collection becomes the old one with the records put in one after the other; no other collection changes |
| `VectorStore.InMemoryVectorStore.Search` | shared/common-libs/cbir_common/vectordb/__init__.py:87-109 | the hits are the first `limit` of the tenant's whole ranking |
| `VectorStore.InMemoryVectorStore.Delete` | shared/common-libs/cbir_common/vectordb/__init__.py:111-115 | removes the ids from an existing collection and touches nothing else |
| `VectorStore.RankingMeaning` | shared/common-libs/cbir_common/vectordb/__init__.py:95-108 | the ranking holds exactly the records that pass the filter, scored by cosine, best first, without repeated ids |
| `VectorStore.SearchIsTopK` | shared/common-libs/cbir_common/vectordb/__init__.py:95-109 | a matching record is missing from the answer only if `limit` hits score at least as much |
| `VectorStore.UpsertIsolated` | shared/common-libs/cbir_common/vectordb/__init__.py:82-85 | an upsert for one tenant leaves every other tenant's collection as it was |
| `VectorStore.DropMeaning` | shared/common-libs/cbir_common/vectordb/__init__.py:111-115 | deleting ids removes exactly their records and keeps the others in order |
| `Reranking.CosineBlendReranker.Score` | ai-service/ai_service/infrastructure/reranking/__init__.py:27-49 | every candidate scored in order, by plain or blended cosine with clamped weight; a length mismatch is an error |
| `Reranking.CosineBlendReranker.Execute` | ai-service/ai_service/application/use_cases/reranking.py:21-36 | empty input is an error; otherwise the scored list sorted and truncated |
| `Reranking.BlendScoreBounded` | ai-service/ai_service/infrastructure/reranking/__init__.py:40-48 | for every weight a caller passes, plain and blended scores lie in [-1, 1] |
| `Reranking.RerankedMeaning` | ai-service/ai_service/application/use_cases/reranking.py:21-36 | an answer exists exactly if there is a candidate and all lengths fit; it is in order, bounded, and min(top_k, candidates) long |
| `Reranking.ScoresExactly` | ai-service/ai_service/infrastructure/reranking/__init__.py:40-49 | each candidate's score in terms of cosines: plain without a modifier or for a weight of at most 0, the modifier's from 1 on, and the weighted mean in between |
| `Reranking.NearerRanksFirst` | ai-service/ai_service/application/use_cases/reranking.py:30-32 | of two candidates equally near to the query, the one nearer to the modifier ranks strictly first for every positive weight and is cut off last |
| `SearchPipeline.PagingLossless` | services/query-service/query_service/application/use_cases/search.py:107-127 | without reranking the page equals that slice of the full score-filtered ranking although only offset + top_k hits are fetched |
| `SearchPipeline.PagesConcatenate` | services/query-service/query_service/application/use_cases/search.py:107-127 | consecutive pages concatenate to the larger page: no gap, no repeat |
| `SearchPipeline.RerankIsIdentity` | services/query-service/query_service/application/use_cases/search.py:134-145 | rescoring and reordering a shortlist already in cosine order gives back its ids, order and scores |
| `SearchPipeline.PreciseIsFast` | services/query-service/query_service/application/use_cases/search.py:107-145 | precise mode without a modifier answers exactly like the fast path, whenever the shortlisted vectors are non-empty and of the query's length |
| `SearchPipeline.PreciseFailsExactly` | services/query-service/query_service/infrastructure/clients/__init__.py:93-105 | precise mode fails exactly if some shortlisted non-empty vector has another length than the query or the modifier |
| `SearchMeaning.FilterExactly` | shared/common-libs/cbir_common/vectordb/__init__.py:124-125 | a record passes exactly if every filtered key holds an equal JSON scalar, a missing key counting as null |
| `SearchMeaning.RankedRecords` | shared/common-libs/cbir_common/vectordb/__init__.py:95-109 | the ranking is exactly the records that pass, each once, nearest first, with their own ids, payloads and cosines |
| `SearchMeaning.FastPageExactly` | services/query-service/query_service/application/use_cases/search.py:122-127 | a fast page shows results number offset to offset + top_k − 1 of the records near enough, each with its own id, rounded cosine and payload; its length is the number of those |
| `SearchMeaning.PagesHoldEachOnce` | services/query-service/query_service/application/use_cases/search.py:122-127 | enough consecutive pages hold every record that passes and is near enough exactly once, nearest first |
| `SearchMeaning.ShortlistExactly` | services/query-service/query_service/application/use_cases/search.py:108-117 | of the records that pass, precise mode shortlists the 3·(offset + top_k) nearest |
| `SearchMeaning.RerankedPageExactly` | services/query-service/query_service/application/use_cases/search.py:119-145 | a reranked page shows those results of the shortlisted records ordered by the half-and-half blend of query and modifier cosine, each with its own id, rounded blend and payload |
| `SearchMeaning.ModifierSteers` | services/query-service/query_service/application/use_cases/search.py:66-86 | in a composed search, of two shortlisted records equally near to the image the one nearer to the modifier comes strictly first |
| `SearchService.SearchUseCases.CachedSourceEmbed` | services/query-service/query_service/application/use_cases/search.py:147-163 | returns the cached vector or embeds and stores it; failures store nothing |
| `SearchService.SearchUseCases.ApplyReranker` | services/query-service/query_service/application/use_cases/search.py:134-145 | the reordering loop: candidates without a vector dropped, unknown ids skipped, scores replaced |
| `SearchService.SearchUseCases.FreshPage` | services/query-service/query_service/application/use_cases/search.py:107-127 | over-fetch, rerank, score filter and slice, in that order, compute the uncached page |
| `SearchService.SearchUseCases.RunQuery` | services/query-service/query_service/application/use_cases/search.py:90-132 | cache hit, or fresh page stored under the key; an error stores no page |
| `SearchService.SearchUseCases.Search` | services/query-service/query_service/application/use_cases/search.py:50-86 | the three entry points: seeds, modifier embedding first for composed queries, key built from the version read before embedding |
| `SearchService.SeedInjective` | services/query-service/query_service/application/use_cases/search.py:53-77 | among queries whose hashed bytes do not collide, equal seeds come from the same kind of query on the same bytes and texts |
| `SearchService.KeyDetermines` | services/query-service/query_service/application/use_cases/search.py:165-184 | two such requests with one key belong to one tenant and have one uncached answer, whatever is indexed |
| `SearchService.ServeTransparent` | services/query-service/query_service/application/use_cases/search.py:90-132 | one request through sound caches gets the uncached results and `reranked` flag, and leaves the caches sound |
| `SearchService.CachesAreInvisible` | services/query-service/query_service/application/use_cases/search.py:50-132 | over any sequence of image, text and composed queries between two index writes, with entries expiring arbitrarily and no collision among the inputs hashed, every answer equals that of a service without caches |
| `HashWitness.CollisionlessExists` | services/query-service/query_service/application/use_cases/search.py:53-77 | the hypothesis on hashes can be met: for up to 16^64 inputs some 64-digit hexadecimal hash is free of collisions |
| `CacheFreshness.NextKeepsInv` | services/query-service/query_service/application/use_cases/search.py:99-132 | every single step of any search or writer keeps: each cached page is the answer over a log prefix containing all writes bumped within its version |
| `CacheFreshness.RunKeepsInv` | services/query-service/query_service/infrastructure/cache/__init__.py:27-65 | that invariant holds in every reachable state |
| `CacheFreshness.CacheIsFresh` | workers/ingestion-worker/ingestion_worker/processor.py:86-102 | under every interleaving of searches (read version, look up, search, store) with upserts and bumps: a search that read its version in step k and is answered later, from the cache or not, reflects every write of its tenant whose bump finished before step k |
| `CacheFreshness.FinishedAtRead` | services/query-service/query_service/infrastructure/cache/__init__.py:31-34 | reading the version remembers exactly the tenant's writes bumped by then |
| `CacheFreshness.RunGoesOn` | services/query-service/query_service/application/use_cases/search.py:99-132 | what a search remembered at its read it still remembers in every later state of the run |
| `CacheFreshness.AnsweredHasRead` | services/query-service/query_service/application/use_cases/search.py:99-107 | every answered search did read its version in some step, so the freshness result covers all answers |
| `IndexVersions.BumpMeaning` | workers/ingestion-worker/ingestion_worker/adapters.py:161-166 | a bump raises its tenant's counter by one and no other |
| `ServedAnswers.QueriesExactly` | services/query-service/query_service/application/use_cases/search.py:50-109 | which query is embedded from what, reranked when, and that a composed query's modifier vector reaches the reranker |
| `ServedAnswers.FlagsExactly` | services/query-service/query_service/application/use_cases/search.py:99-132 | `cached` says exactly whether the page was cached, `reranked` exactly whether a reranker was there and asked for; the page is cached afterwards |
| `ServedAnswers.AskedAgain` | services/query-service/query_service/application/use_cases/search.py:102-105 | asking again under the same version is a hit with the same results that touches nothing |
| `ServedAnswers.EmbeddingsAreKept` | services/query-service/query_service/application/use_cases/search.py:147-163 | an embedding computed is cached, a cached one is used, a failure stores nothing |
| `ServedAnswers.BumpThenSearch` | services/query-service/query_service/infrastructure/cache/__init__.py:31-34 | on one Redis, after the worker's bump the tenant's next search is computed afresh from its collection as it then is, whatever was cached |
| `ServedAnswers.IndexThenSearch` | workers/ingestion-worker/ingestion_worker/processor.py:86-102 | after the worker has indexed an item, its tenant's next search is that of a collection holding the item's own vector and payload |
| `FreshnessRefinement.StepsAreOneSearch` | services/query-service/query_service/application/use_cases/search.py:90-132 | the interleaved search steps, taken without interruption, are one call of the service: same answer, same flag, same cached pages |
| `FreshnessRefinement.IndexingIsAWrite` | workers/ingestion-worker/ingestion_worker/processor.py:86-102 | an attempt that indexes is one write and one bump of the interleaved model |
| `Ingestion.SqlAlchemyItemStore.ListIndexedPhashes` | workers/ingestion-worker/ingestion_worker/adapters.py:89-99 | each indexed, hashed row of the tenant exactly once, newest first |
| `Ingestion.BuildPayload` | workers/ingestion-worker/ingestion_worker/processor.py:106-118 | the metadata loop, in any iteration order: id, non-empty external id, scalar metadata on top |
| `Ingestion.IngestionProcessor.ProcessItem` | workers/ingestion-worker/ingestion_worker/processor.py:58-82 | the attempt changes session, store and counters as the reference attempt does, for every fault at every step |
| `Ingestion.IngestionProcessor.Index` | workers/ingestion-worker/ingestion_worker/processor.py:84-103 | collection, vector, row and reference, bump, in that order; a failed bump is swallowed |
| `Runner.IngestionRunner.RunJob` | workers/ingestion-worker/ingestion_worker/main.py:46-64 | rows and references are committed or exactly restored; vectors and counters are not rolled back |
| `PipelineRuns.AttemptCases` | workers/ingestion-worker/ingestion_worker/main.py:46-64 | a failed or skipped attempt leaves rows and references exactly as before; otherwise exactly one row changes, and what may have reached the store is its own vector |
| `IngestionMeaning.PayloadMeaning` | workers/ingestion-worker/ingestion_worker/processor.py:106-118 | the payload key by key: the id, a non-empty external id, every string, number and boolean of the metadata, and nothing else |
| `IngestionMeaning.ReturnsExactly` | workers/ingestion-worker/ingestion_worker/processor.py:58-103 | exactly when an attempt is skipped, indexes, or finds a duplicate, and of which original |
| `IngestionMeaning.RaisesExactly` | workers/ingestion-worker/ingestion_worker/processor.py:71-74 | faults of download and embedding are passed on; exactly when the fault is permanent, and with which message |
| `IngestionMeaning.RowsWritten` | workers/ingestion-worker/ingestion_worker/adapters.py:59-84 | field by field what an indexed, duplicate, skipped or failed attempt leaves in the rows |
| `IngestionMeaning.RestWritten` | workers/ingestion-worker/ingestion_worker/processor.py:84-103 | field by field the new reference, the counter, and the item's own vector and payload in its collection |
| `IngestionMeaning.CollectionsExactly` | workers/ingestion-worker/ingestion_worker/processor.py:84-90 | every tenant's collection after an attempt: the item's own vector put into its own tenant's exactly if it was written, and no other change |
| `IngestionMeaning.BumpsExactly` | workers/ingestion-worker/ingestion_worker/processor.py:98-102 | exactly when an attempt moves a counter, a commit that fails after the bump included |
| `IngestionMeaning.NewestOriginalCited` | workers/ingestion-worker/ingestion_worker/adapters.py:89-99 | among equally close originals the most recently indexed one is cited |
| `Runner.IngestionRunner.HandlePayload` | workers/ingestion-worker/ingestion_worker/runner.py:61-93 | every branch of one job's disposition, as a whole new state |
| `Runner.IngestionRunner.RetryOrBury` | workers/ingestion-worker/ingestion_worker/runner.py:81-93 | dead letter once the attempts are used up, else a re-queue with attempts + 1 after backoff; a negative backoff raises before the re-queue |
| `Runner.IngestionRunner.HandleNext` | workers/ingestion-worker/ingestion_worker/main.py:93-100 | one loop turn: pop, then handle |
| `Runner.IngestionRunner.Drain` | workers/ingestion-worker/ingestion_worker/main.py:91-100 | with no new jobs the loop ends with an empty queue after at most the queue's weight in turns, every fault allowed |
| `Runner.TurnShape` | workers/ingestion-worker/ingestion_worker/runner.py:61-93 | the popped payload gets exactly one disposition, and returns to the queue only as a retry with attempts + 1 below the maximum |
| `RunnerMeaning.DispositionExactly` | workers/ingestion-worker/ingestion_worker/runner.py:64-93 | exactly when a turn ends in done, retry, dead letter or a dropped job, in terms of how the attempt ended, its count and its backoff |
| `RunnerMeaning.FailsExactly` | workers/ingestion-worker/ingestion_worker/runner.py:77-87 | exactly when a row ends up failed, with which reason and attempt count; nothing else changes after the attempt |
| `RunnerMeaning.ExhaustedExactly` | workers/ingestion-worker/ingestion_worker/runner.py:81-93 | a fresh job whose attempts all fail transiently is handled exactly max_attempts times, pauses exactly base·max·(max − 1)/2, and ends in the dead-letter list with its row failed |
| `Runner.TurnConserves` | workers/ingestion-worker/ingestion_worker/runner.py:61-93 | waiting plus settled jobs stay constant, per job and in total; the dead-letter list is exactly what was buried |
| `Runner.TurnLowersWeight` | workers/ingestion-worker/ingestion_worker/runner.py:81-93 | a turn strictly lowers the sum of max(1, max_attempts − attempts) |
| `Runner.TurnSleeps` | workers/ingestion-worker/ingestion_worker/runner.py:90 | backoff slept plus backoff still possible never grows |
| `Runner.RunsAreBounded` | workers/ingestion-worker/ingestion_worker/runner.py:61-93 | over whole runs: conservation, and per job a bound on handlings and on total pause |
| `Runner.QueueDrains` | workers/ingestion-worker/ingestion_worker/main.py:91-100 | after as many turns as the queue weighs, the queue is empty |
| `Runner.FreshJobBounds` | workers/ingestion-worker/ingestion_worker/runner.py:82-90 | the measures of a lone fresh job: max_attempts runs, and pauses adding up to base·max·(max − 1)/2 |
| `Runner.JobsAreBounded` | workers/ingestion-worker/ingestion_worker/runner.py:82-90 | on every run over every queue, per job and in total: at most max_attempts runs (one if that is below one), and total pauses of at most base·max·(max − 1)/2, for each time the job was waiting |
| `Runner.PausesAreGaps` | workers/ingestion-worker/ingestion_worker/runner.py:90 | pauses of consecutive retries add up to base times the sum of their attempt numbers |
| `Catalog.CatalogUseCases.ConfirmUpload` | services/catalog-service/catalog_service/application/use_cases/items.py:158-174 | only an owned, uploaded item is queued again, whatever its status, with a fresh job pushed |
| `Catalog.CatalogUseCases.DeleteItem` | services/catalog-service/catalog_service/application/use_cases/items.py:224-227 | removes the row and its references, and leaves vectors, counters and queue alone |
| `Catalog.ConfirmExactly` | services/catalog-service/catalog_service/application/use_cases/items.py:158-174 | exactly whose confirm succeeds; status, size, failure reason and a fresh job with no attempts at the back of the queue, nothing else |
| `Catalog.DeleteExactly` | services/catalog-service/catalog_service/application/use_cases/items.py:224-227 | exactly the row and the references to it go |
| `PipelineRuns.StepKeepsSeparation` | workers/ingestion-worker/ingestion_worker/processor.py:76-97 | every registration, confirm, delete, injection and worker turn keeps the indexed set separated |
| `PipelineRuns.IndexIsSeparated` | workers/ingestion-worker/ingestion_worker/dedup.py:12-26 | in every reachable state two distinct indexed items of a tenant with non-blank hashes have hashes more than `threshold` bits apart; a blank hash is never compared |
| `PipelineRuns.HashNeverBlank` | ai-service/ai_service/infrastructure/embedding/phash.py:36-40 | the printed hash of any picture is non-blank |
| `PipelineRuns.IndexIsFullySeparated` | workers/ingestion-worker/ingestion_worker/processor.py:72-97 | in runs whose embeddings carry printed hashes the separation has no exception |
| `PipelineStore.AttemptKeepsBacked` | workers/ingestion-worker/ingestion_worker/processor.py:84-97 | one attempt, with any fault, keeps every indexed row backed by vector and reference |
| `PipelineStore.AttemptKeepsIsolated` | workers/ingestion-worker/ingestion_worker/processor.py:86-90 | one attempt never puts an item into another tenant's collection |
| `PipelineStore.StoreNeverBehind` | workers/ingestion-worker/ingestion_worker/main.py:46-64 | in every reachable state each indexed row has a vector under its id in its tenant's collection and a reference saying so; stored vectors are non-empty, unique per id and never another tenant's |
| `PipelineCover.StepAndCover` | workers/ingestion-worker/ingestion_worker/processor.py:76-82 | a step breaks the cover (every duplicate points at a still-indexed item within the threshold) exactly if it confirms, deletes or database-fails a cited item |
| `PipelineCover.CoverHolds` | services/catalog-service/catalog_service/domain/entities/__init__.py:37-44 | a run is covered throughout exactly if none of its steps orphans a duplicate |
| `PipelineCover.UndisturbedRunsAreCovered` | workers/ingestion-worker/ingestion_worker/processor.py:76-97 | runs without deletes, re-confirms of indexed items and database faults stay covered |
| `PipelineCover.IndexIsMaximal` | workers/ingestion-worker/ingestion_worker/processor.py:76-82 | a covered, separated index is a maximal separated subset of its tenant's processed items |
| `PipelineCover.ReconfirmOrphans` | services/catalog-service/catalog_service/domain/entities/__init__.py:37-44 | a legal, fault-free run in which confirming an indexed item again breaks the cover |
| `PipelineRedelivery.AttemptOnSettled` | workers/ingestion-worker/ingestion_worker/processor.py:58-82 | a fault-free attempt on an indexed, duplicate or deleted item returns and changes neither references, store nor counters |
| `PipelineRedelivery.DuplicateFoundAgain` | workers/ingestion-worker/ingestion_worker/dedup.py:12-26 | a duplicate's hash always finds an original again |
| `PipelineRedelivery.RedeliveryIsHarmless` | workers/ingestion-worker/ingestion_worker/processor.py:58-82 | any multiset of redelivered jobs for settled items, in any order, changes neither the set of indexed items nor the store nor the version counters |
| `PipelineRedelivery.RunsAreSteady` | workers/ingestion-worker/ingestion_worker/processor.py:58-97 | the states this starts from are those undisturbed runs reach |
| `RateLimiter.RedisRateLimiter.HitBucket` | services/auth-service/auth_service/infrastructure/ratelimit/__init__.py:33-62 | one INCR with a 120-second expiry, and the decision with its remaining budget and wait |
| `RateLimiter.LiveCountsHits` | services/auth-service/auth_service/infrastructure/ratelimit/__init__.py:38-41 | inside its own window a counter is never lost to expiry: it equals the number of hits |
| `RateLimiter.AdmittedExactly` | services/auth-service/auth_service/infrastructure/ratelimit/__init__.py:50-62 | a hit passes exactly if fewer than `limit` hits came before it in the same aligned minute |
| `RateLimiter.HitLeaves` | services/auth-service/auth_service/infrastructure/ratelimit/__init__.py:38-41 | a hit leaves its own counter one higher and good for 120 more seconds, and every other counter alone |
| `RateLimiter.DecisionExactly` | services/auth-service/auth_service/infrastructure/ratelimit/__init__.py:50-62 | the whole decision in minutes of 60 000 ms: who passes, what is left of the budget, and the seconds to the next minute |
| `RateLimiter.MinuteExactly` | services/auth-service/auth_service/infrastructure/ratelimit/__init__.py:33-62 | a clock minute admits exactly the first `limit` of its hits |
| `RateLimiter.MinuteBound` | services/auth-service/auth_service/infrastructure/ratelimit/__init__.py:33-62 | an aligned minute admits exactly min(hits, limit) |
| `RateLimiter.SpanBound` | services/auth-service/auth_service/infrastructure/ratelimit/__init__.py:33-62 | any 60 seconds admit at most 2·limit |
| `RateLimiter.RetryAfterSuffices` | services/auth-service/auth_service/infrastructure/ratelimit/__init__.py:51-56 | the advertised wait is 1 to 60 seconds and leads to a moment that admits an undisturbed bucket |
| `ApiKeys.ApiKeyUseCases.IssueKey` | services/auth-service/auth_service/application/use_cases/api_keys.py:54-87 | errors in the source's order, else one new active key with the given or default limit and expiry |
| `ApiKeys.ApiKeyUseCases.RotateKey` | services/auth-service/auth_service/application/use_cases/api_keys.py:104-129 | only an active key rotates: it enters grace, the replacement inherits everything that grants access |
| `ApiKeys.ApiKeyUseCases.RevokeKey` | services/auth-service/auth_service/application/use_cases/api_keys.py:143-151 | the key is revoked and listed for token lifetime plus a minute |
| `ApiKeys.DistinctMeaning` | services/auth-service/auth_service/domain/value_objects/__init__.py:46-52 | de-duplication keeps exactly the scopes given, each once, in the order of their first occurrence |
| `CredentialMeaning.UsableExactly` | services/auth-service/auth_service/domain/entities/__init__.py:48-63 | a key is usable exactly while not revoked, within its grace and not expired; each reason exactly when it applies |
| `CredentialMeaning.IssueExactly` | services/auth-service/auth_service/application/use_cases/api_keys.py:54-87 | exactly when a key is issued, with which error it is not, and every field of the new key |
| `CredentialMeaning.RotateExactly` | services/auth-service/auth_service/application/use_cases/api_keys.py:104-129 | exactly an active key rotates; the replacement's fields, and that the old key lives for the grace period and no longer |
| `CredentialMeaning.RevokeExactly` | services/auth-service/auth_service/application/use_cases/api_keys.py:143-151 | a known key becomes revoked at that time and keeps all other fields |
| `Credentials.CredentialUseCases.EnforceRateLimit` | services/auth-service/auth_service/application/use_cases/credentials.py:99-110 | charges the key's bucket and turns a refusal into an error with its wait |
| `Credentials.CredentialUseCases.ValidateRawKey` | services/auth-service/auth_service/application/use_cases/credentials.py:40-69 | the order of checks, each with its error, and the limiter charged only after all of them |
| `Credentials.CredentialUseCases.ValidateToken` | services/auth-service/auth_service/application/use_cases/credentials.py:83-96 | signature and times, then the revocation list, then the limiter |
| `Credentials.CredentialUseCases.IssueAccessToken` | services/auth-service/auth_service/application/use_cases/tokens.py:21-35 | a valid key is exchanged for a token with its claims, signed at a possibly later moment |
| `CredentialMeaning.RawKeyExactly` | services/auth-service/auth_service/application/use_cases/credentials.py:40-69 | a raw key reaches the limiter exactly if its secret is the key's own, the key lives and its tenant is active, and is charged to its own bucket and limit; success carries its own tenant, scopes and limit |
| `CredentialMeaning.RawKeyErrors` | services/auth-service/auth_service/application/use_cases/credentials.py:41-58 | which error everybody else gets, each exactly when |
| `CredentialMeaning.BearerExactly` | services/auth-service/auth_service/application/use_cases/credentials.py:83-96 | a token reaches the limiter exactly if signed by the service, within its times and not listed; its claims are passed on |
| `CredentialMeaning.SignedLives` | services/auth-service/auth_service/infrastructure/security/__init__.py:28-59 | a signed token is valid from the start of its second for exactly its lifetime |
| `CredentialMeaning.ListedLives` | services/auth-service/auth_service/infrastructure/ratelimit/__init__.py:69-82 | a revocation entry lasts exactly the token lifetime and a minute; other entries stay |
| `CredentialRuns.AnswerIsHit` | services/auth-service/auth_service/application/use_cases/credentials.py:99-110 | a validation succeeds exactly if it reaches the limiter and the hit is allowed |
| `CredentialRuns.KeysMove` | services/auth-service/auth_service/application/use_cases/api_keys.py:104-151 | one step only evolves existing keys, adds at most one, and revokes only a key that is on the list, in time |
| `CredentialRuns.TokensMove` | services/auth-service/auth_service/infrastructure/security/__init__.py:28-41 | one step only adds a token signed for a pending exchange, and only begins exchanges for keys usable at that moment |
| `CredentialRuns.EvolvedStaysUnusable` | services/auth-service/auth_service/domain/entities/__init__.py:48-63 | whatever may happen to a key, unusable at one time means unusable at every later time |
| `CredentialRuns.UnusableForever` | services/auth-service/auth_service/domain/entities/__init__.py:48-63 | the same over every run |
| `CredentialRuns.KeysEvolve` | services/auth-service/auth_service/application/use_cases/api_keys.py:104-129 | owner, secret, scopes, limit, expiry and parent of a key never change, and its status never goes back |
| `CredentialRuns.RevokedNeverAdmits` | services/auth-service/auth_service/application/use_cases/credentials.py:83-86 | in any state keeping the invariants, nothing of a revoked key validates |
| `CredentialRuns.RevocationIsFinal` | services/auth-service/auth_service/application/use_cases/api_keys.py:143-151 | on every run where the delay of committing a revocation and that of signing in an exchange add up to at most a minute, no raw-key, exchange or bearer validation of the key succeeds after the commit |
| `RevocationLimit.FinalExactlyWithinAMinute` | services/auth-service/auth_service/infrastructure/ratelimit/__init__.py:69-78 | revocation is final on all runs exactly if commit delay plus exchange gap is at most the 60 seconds the entry outlives a token |
| `RevocationLimit.LateTokenValidates` | services/auth-service/auth_service/entrypoint/composition_root/__init__.py:84-108 | for every pair of delays adding up to more, a concrete legal run that revives a revoked key |
| `CredentialRuns.TokenLagBound` | services/auth-service/auth_service/application/use_cases/tokens.py:21-35 | if a key is unusable from d on, no bearer token of it validates at or after d + gap + ttl, over every interleaving |
| `CredentialMeaning.OnlyTheSecretOpens` | services/auth-service/auth_service/application/use_cases/credentials.py:42-50 | on every run, whoever validates with a raw key presents a secret whose digest is the one the key was issued or rotated in with |
| `CredentialMeaning.TokensEndWithTheirKey` | services/auth-service/auth_service/application/use_cases/tokens.py:21-35 | the token lag in terms of expiry, grace deadline and revocation |
| `CredentialMeaning.DeadStaysDead` | services/auth-service/auth_service/domain/entities/__init__.py:48-63 | a key past its expiry or grace, or revoked, never lives again |
| `KeyLineage.LineageHolds` | services/auth-service/auth_service/application/use_cases/api_keys.py:104-129 | on every run: parents are older, retired and grant the same access; nobody has two replacements |
| `KeyLineage.SharedAncestor` | services/auth-service/auth_service/application/use_cases/api_keys.py:105-111 | of two keys with a common ancestor the one nearer to it has been rotated away |
| `KeyLineage.LineagesAreSound` | services/auth-service/auth_service/application/use_cases/api_keys.py:104-129 | rotation lineages never loop, hold at most one active key, and share tenant, scopes, rate limit and expiry |
| `CredentialRates.HitsStayOk` | services/auth-service/auth_service/application/use_cases/credentials.py:99-110 | on every run the counters are those of the recorded hits, each charged to an existing key under its own limit |
| `CredentialRates.AdmittedAreHits` | services/auth-service/auth_service/application/use_cases/credentials.py:99-110 | successful validations of a run are exactly the admitted hits of the key's bucket |
| `CredentialRates.RateBoundOverRuns` | services/auth-service/auth_service/application/use_cases/credentials.py:99-110 | per key, each aligned minute has at most `limit` successes over raw keys, exchanges and tokens together, any 60 seconds at most twice that |
| `CredentialRates.RefusedOnlyWhenSpent` | services/auth-service/auth_service/application/use_cases/credentials.py:103-107 | a rate-limit refusal means exactly `limit` successes in that minute already |
| `BatchEmbedding.GenerateEmbeddings.Execute` | ai-service/ai_service/application/use_cases/embeddings.py:20-53 | the partition, two provider calls and two scatter loops compute the reference batch, errors included |
| `BatchEmbedding.GenerateEmbeddings.ScatterImages` | ai-service/ai_service/application/use_cases/embeddings.py:38-45 | the first loop fills exactly the image slots it has vectors for, or stops at the first hash failure |
| `BatchEmbedding.GenerateEmbeddings.ScatterTexts` | ai-service/ai_service/application/use_cases/embeddings.py:46-47 | the second loop fills the text slots and leaves the image slots alone |
| `BatchEmbedding.PositionOfRank` | ai-service/ai_service/application/use_cases/embeddings.py:24-25 | partitioned positions and ranks are inverse, so every vector returns to its input |
| `BatchEmbedding.BatchIsPointwise` | ai-service/ai_service/application/use_cases/embeddings.py:24-53 | with a provider that works one input at a time on this batch, the call succeeds exactly if every input alone does, and is then the pointwise map in the caller's order, hashed exactly on images when asked |
| `BatchEmbedding.NothingDroppedExactly` | ai-service/ai_service/application/use_cases/embeddings.py:39-52 | one result per input exactly if the provider returned a vector for every image and text |
| `RetrievalQuality.NdcgAtK` | infra/ci/quality-gates/retrieval_quality.py:60-68 | the loop computes gain over ideal gain, zero when nothing is ideal, negative k as Python slices |
| `RetrievalQuality.NdcgFormula` | infra/ci/quality-gates/retrieval_quality.py:60-68 | nDCG as a formula: the sum of d(i + 1) over the relevant places i of the slice, divided by d(1) + … + d(min(relevant, k)), or zero |
| `RetrievalQuality.GainWithinIdeal` | infra/ci/quality-gates/retrieval_quality.py:62-67 | exchange: the gain of any list is at most that of its hits moved to the front |
| `RetrievalQuality.BoundedExactlyWithoutRepeats` | infra/ci/quality-gates/retrieval_quality.py:60-68 | nDCG is within [0, 1] for every ground truth exactly if the top k repeats no id (or k ≤ 0) |
| `RetrievalQuality.PerfectExactly` | infra/ci/quality-gates/retrieval_quality.py:60-68 | a ranking without repeats scores 1 exactly if its first min(relevant, k) places are all relevant |
| `RetrievalQuality.EarlierIsNoWorse` | infra/ci/quality-gates/retrieval_quality.py:60-68 | moving a relevant item to any earlier place never lowers nDCG, even across the cut at k |

## Left out

- Process crashes between BRPOP and the end of a turn, and more than one worker: the code guards neither, so every ingestion result is for one worker whose turns complete.
- Redis outages: the fail-open branches of limiter, revocation list and caches, the "unavailable" version bucket and failing pushes. A failing version bump is modelled and swallowed; freshness is about bumps that finished.
- Confirm's window between enqueue and commit: one atomic step here.
- Time-to-live of cached results and embeddings: expiry is an arbitrary loss of entries at any moment.
- Floating point: exact reals throughout; `round(x, 6)` is an arbitrary function.
- Image decoding, resizing and thresholding: the hash starts from the thresholded bits.
- `int(s, 16)` also accepts signs, underscores, blanks and a `0x` prefix; hashes with those are errors in the model. The hash printer never produces them.
- SHA-256 collisions: the cache theorems assume that no two different inputs hashed in the run at hand collide; the outer digest of a result key is modelled as the JSON object itself. UTF-8 is injective, signatures are unforgeable, the embedder is deterministic, and one clock serves application, Redis and tokens.
- Concurrent rotations and revocations of one key that overwrite each other's row: issuing and rotating are one step each, and a revocation's commit only adds the revocation to the row as it then is. A revocation whose commit never comes is allowed.
- Exchanges are two steps, validating and signing; nothing in the code bounds the time between them, so the theorems name it `gap`; likewise `commit` between listing and committing a revocation.
- CacheFreshness: searches embed without the embedding cache, which `CachesAreInvisible` shows makes no difference.
- Whitespace in key names, parsing of key and tenant ids, JSON encodings, audit fields (`updated_at`) and the 1000-character cut of failure reasons.
- A worker turn interleaved with confirms and deletes: each turn is one step of a run, as confirm is.
- Database faults other than at the modelled points, and a commit that fails after taking effect: a failing commit always rolls back here.
- An item id that is no UUID (it behaves like a failing read), and other spellings of an item's UUID in an injected job, which the code would resolve to the same row.
- Ties in `indexed_at`: the listing may order them either way, and every result holds for both.
- PreciseIsFast: covers shortlists of non-empty vectors of the query's length; `PreciseFailsExactly` says when another length raises, and an empty vector is dropped from the shortlist.
- PagesConcatenate: stops at a combined page of 100, the largest the parameters allow.
- Page consistency with a modifier: not claimed, since the shortlist size depends on the offset.
- `SearchParameters` bounds appear as `ValidParams`; the constructor's errors are not modelled.
- Qdrant itself, S3, HTTP clients: fault outcomes only; the in-memory store is the search contract.
- Recall, precision, reciprocal rank and their means: short expressions that would only add easy members.
- Registration beyond adding a fresh row, feedback, tenant administration, usage, migrations, controllers, metrics, dashboard, SDK and infrastructure.
