# A model of the pipe service

The `pipe` service turns an ingestion event into chunk rows and vector rows. This project models
its pipeline in Dafny and proves what the code promises, or exactly when it keeps the promise.

| File | Models |
|---|---|
| `Domain.dfy` | chunks, vectors, lines, and a few relations on maps and sequences |
| `Pages.dfy` | the form-feed scan loop and the removal of recurring headers |
| `Packing.dfy`, `Windows.dfy`, `Segmenter.dfy`, `SegmentLaws.dfy` | greedy unit packing with carried-over overlap, sliding windows, the four strategies, and what holds of every segmentation |
| `Deduplicator.dfy` | the bounded first-in first-out cache, the lossy Redis map, and the three-tier lookup with other workers in between |
| `Repository.dfy`, `SaveLaws.dfy` | the two tables with their constraints, the batched bulk save with its id remap, and what its contract implies |
| `MinHash.dfy` | signatures and the banded near-duplicate index |
| `Enrichment.dfy` | the keep-or-drop decision, one goroutine per chunk, and the positional pairing condition |
| `Vectorizer.dfy` | the retry loop, and the sub-batch goroutines as interleaved steps under the semaphore |
| `Runs.dfy`, `RunLaws.dfy` | one document's passage as a relation on values; coherence, redelivery, lasting damage |
| `Worker.dfy` | `ProcessDocument` stage by stage, and a worker's list of events |
| `Fleet.dfy` | any number of workers over one set of caches and tables, every interleaving |
| `Counterexamples.dfy` | concrete runs at which a property fails once a condition is dropped |
| `Delivery.dfy`, `Service.dfy` | the subscriber as a transition system, and subscriber and worker together |
| `Keywords.dfy`, `Splitting.dfy` | keyword scoring, the sentence splitter and the hyphen joiner |

How the parts compose: a call of the worker ends at a stop, which names the stage and holds what
the call had in hand, and the worker's contract gives the exact reason for each stop. A call that
reaches the save holds a run record, whose fields are related by the contracts of lookup,
segmentation, enrichment, embedding and save. The lemmas of `RunLaws.dfy` speak about any such
records, and `Service.dfy` about histories of stops and about what the outcome of a call means to
the delivery protocol.

Concurrency is modelled twice. In the classes, `OtherWorkers` stands between any two steps for
whatever others do: tables grow, caches change, and a sound state stays sound. A parameter `w`
carries what this soundness allows: `owner` names the hash an id was generated for, `batch` the
hashes of the call it was generated in, `pending` the pairs that may sit in a cache without being a
row. `OtherWorkers(w)` assumes that what the others register and have not saved is in `w.pending`.
With nothing pending, soundness says that both caches are parts of the table, and the assumption is
that nobody else registers meanwhile; with every owned pair pending, it says that no id stands under
a foreign hash, and the assumption is only that the others pair rightly. `Fleet.dfy` has the
individual steps of all workers and proves the assumption for every `w` that allows for what is
registered; `Counterexamples.dfy` has the step that breaks it for one that does not.

What a function computes is stated a second time without it: by places in the text, sums, sets and
multisets, hash by hash or word by word. These lemmas end in `Exactly`, and where the description
leaves no choice a lemma that ends in `Unique` says so.

Beside soundness runs a weaker condition that needs no right pairs (`Accounted`): the table holds
whole batches, since a save brings all hashes of its call or none, and each cached pair has its hash
in the table or in the batch of its id. Every step of every worker keeps it, right pairs or wrong
(`Fleet.EveryScheduleAccounted`), and redelivery rests on it alone.

What turns out to hold, and when:

- Keys and foreign key hold under every interleaving, without conditions.
- A chunk row always names the vector row of its own hash, under every interleaving, with failing
  saves, stale caches and renamed ids, provided that in each run every kept chunk met the vector of
  its own hash. That is so if no kept chunk follows a dropped one and, with distinct new hashes,
  only then.
- The caches agree with the table after a run exactly when the run committed, the pairing was right
  and no id was renamed, or nothing was registered. Registration comes before the save, so a failed
  save leaves pairs behind that fail every redelivery while they stay cached.
- A run commits exactly when no round trip fails, no statement repeats a hash, its keys are free, no
  kept chunk sits at a repeated hash, and no answer of its lookup dangles.
- Redelivery of an event has one effect, and later deliveries report failure, if three things hold:
  its document id parses, the deliveries read the same lines, and the later lookup loses no row.
  Failed saves, stale cache entries and wrong pairs do no harm to this; generated ids are fresh, so
  that each belongs to one call. An id that does not parse is replaced by a random one, and each
  redelivery then commits another copy.
- A scan error is lost when the worker looks before it is set: the worker ranges over a channel
  that the extractor closes before it returns. The lines read so far are then committed and acked as
  the document, and a later delivery of the whole fails as soon as both would save one position.
- A repeated hash among new chunks makes the save fail when nothing is dropped.
- Exact token windows end for every setting the constructor lets through except a budget of one
  token on a text of two or more.

## Model

| member | source | states |
|---|---|---|
| `Worker.PipelineWorker.ProcessDocument` | pipe/internal/worker/pipeline_worker.go:54-233 | Every call ends at a named stage for exactly that stage's reason (`StopsAt`): no event, no object, a scan error seen in time, no chunk, a lookup whose query failed with something left to ask, a failing sub-batch, or the save. Success is reported exactly when there was nothing to do or the run committed; a call that reaches the save leaves exactly the tables of its run and has announced every kept chunk to cache and index; the memory and the Redis it asked are what memory and Redis really held at some time since the call began; sound state stays sound whenever the run is harmless; and accounted state stays accounted whatever was paired with what, with other workers between any two steps |
| `Worker.PipelineWorker.HandleEvents` | pipe/internal/repository/event_subscriber.go:108-205 | A worker handling any list of events: one result and one stop per event, each stop for its exact reason, each run on tables grown out of what the runs before it left; if all runs are harmless, soundness (caches name table rows or pending pairs; every chunk row names the vector row of its own hash) at the end, and every run sound; and with no condition on the pairing, whole batches in the table and placed pairs in caches and answers throughout |
| `Worker.PipelineWorker.Prepare` | pipe/internal/worker/pipeline_worker.go:66-121 | Fetch, extraction, header removal and segmentation composed: stops exactly when the object is missing or a scan error is seen in time; otherwise segments the kept ones of the lines that were sent, with the generated chunk ids, and with the document id the event's id parses to, or the random one if it does not parse |
| `Worker.PipelineWorker.RawExactly` | pipe/internal/pipeline/segmenter.go:107-110 | What every call works on: chunks of the document the event's id parses to, or of one with a random id exactly when it does not, numbered from 0, hashed, without vectors; their text is a segmentation of what header removal leaves of the complete extraction of the stream |
| `Worker.PipelineWorker.ReachesExactly` | pipe/internal/worker/pipeline_worker.go:54-194 | Stopping for want of an event id, of the object, or on a seen scan error, each exactly when; a call reaches the save if and only if the event has an id, the object is there, no scan error is seen, the segmentation is not empty, the three tiers answer, and every sub-batch of the chunks still to embed succeeds; and it has nothing to do if and only if there is no event, no id or no chunk |
| `Worker.PipelineWorker.SucceedsExactly` | pipe/internal/worker/pipeline_worker.go:54-233 | With fresh ids a call reports success if and only if there was nothing to do, or it reaches the save, no round trip fails, and the tables admit its run (no hash twice in a statement, free keys, no kept chunk at a repeated hash, no dangling answer) |
| `Worker.PipelineWorker.BrokenScan` | pipe/internal/worker/pipeline_worker.go:83-101 | The extractor closes its channel before its error is assigned: an error that is seen stops the call, and after one that is not seen the call works on a segmentation of a beginning of the whole document's lines, exactly as if the stream had ended there |
| `Worker.PipelineWorker.FirstTextStays` | pipe/internal/worker/pipeline_worker.go:83-101 | Whatever text was committed first under a document id stays: a later call under the same parsable id over any other text fails as soon as both would save one position |
| `Worker.PipelineWorker.LaterCallFails` | pipe/internal/worker/pipeline_worker.go:143-151 | After a call that committed rows, a later call for an event with the same document id, which parses, over the same lines, whose lookup loses no row, reports failure, however either was paired |
| `Worker.PipelineWorker.Partition` | pipe/internal/worker/pipeline_worker.go:139-151 | The split loop gives exactly the duplicates, repointed, and the chunks to embed |
| `Worker.PipelineWorker.EnrichAndEmbed` | pipe/internal/worker/pipeline_worker.go:156-194 | In either completion order: an order-preserving filter of the chunks, and one vector per chunk, made from it by the reply that settled its sub-batch, exactly when every sub-batch succeeds |
| `Worker.PipelineWorker.PairAndRegister` | pipe/internal/worker/pipeline_worker.go:196-205 | The list built is the duplicates followed by the positional pairing; every pair has gone through the cache and the near-duplicate index; in a sound state exactly these pairs become pending |
| `Worker.PipelineWorker.Lookup` | pipe/internal/worker/pipeline_worker.go:127-151 | Lookup and partition over the hashed chunks: the answer is exactly that of the three tiers, memory as it was on entry and the table between entry and return, and fails exactly when theirs does |
| `Worker.PipelineWorker.PairAndSave` | pipe/internal/worker/pipeline_worker.go:196-217 | Registration before the save: the record is a run, the tables end as the run says, and a harmless run is a sound run and ends sound |
| `Worker.SameEventSameDocument` | pipe/internal/pipeline/segmenter.go:93-124 | Two deliveries of one event with a parsable document id that read the same lines segment into the same document: same keys, contents and hashes |
| `Worker.RawUnique` | pipe/internal/pipeline/segmenter.go:329-345 | No two chunks of one segmentation share an id or a (document, index), so its rows are unique among themselves |
| `Worker.CleanIsHarmless` | pipe/internal/worker/pipeline_worker.go:196-209 | A run that commits with the right pairing and no renamed id, or fails with nothing registered, leaves nothing pending |
| `Worker.OwnedIsHarmless` | pipe/internal/worker/pipeline_worker.go:196-209 | With every id allowed under its own hash, the right pairing alone makes a run harmless |
| `Worker.HarmlessEnd` | pipe/internal/worker/pipeline_worker.go:196-217 | After a harmless run the database is sound and each cache holds only rows and what was pending before |
| `Runs.RunKeepsSound` | pipe/internal/worker/pipeline_worker.go:143-209 | Safety of every run, committed or failed, however stale the caches and whatever was raced or renamed: if each kept chunk met the vector of its own hash, the database stays consistent and faithful |
| `Runs.RunKeepsBatches` | pipe/internal/worker/pipeline_worker.go:196-217 | With no condition on the pairing: every run, committed or failed, leaves a table in which a row comes with every hash of the call its id was generated in, and every pair it registers has its hash in that call |
| `Runs.PairingInBatch` | pipe/internal/worker/pipeline_worker.go:196-203 | The positional pairing, right or wrong, never leaves the call: every kept chunk meets the id of a vector of the same call |
| `Runs.PairingOfRun` | pipe/internal/worker/pipeline_worker.go:196-203 | A run's positional pairing is hash-correct if no kept chunk follows a dropped one and, with distinct new hashes, only then |
| `Runs.RowsExactly` | pipe/internal/worker/pipeline_worker.go:196-209 | Given right lookup answers, all rows of a committed run name the vector of their own hash if and only if the pairing was hash-correct |
| `Runs.NearDuplicateIgnored` | pipe/internal/worker/pipeline_worker.go:198-199 | The near-duplicate vector chosen by enrichment never reaches a row: every kept chunk is repointed |
| `Runs.PartitionConserves` | pipe/internal/worker/pipeline_worker.go:143-151 | Every raw chunk lands on exactly one side of the partition |
| `Runs.PartitionExactly` | pipe/internal/worker/pipeline_worker.go:143-151 | Both sides keep the order of the raw chunks; a chunk is a duplicate, pointed at the vector known for its hash, exactly when its hash is known, and otherwise left as it was |
| `Runs.SomethingToSave` | pipe/internal/repository/vector_repository.go:142-144 | A run that got this far never meets the empty-call shortcut |
| `RunLaws.RegistrationExact` | pipe/internal/worker/pipeline_worker.go:199-209 | The pairs a committed run registered ahead of its save are table rows afterwards if and only if the pairing was hash-correct and no id was renamed |
| `RunLaws.CleanRunSettles` | pipe/internal/worker/pipeline_worker.go:196-209 | After a clean run every pair it registered is a table row |
| `RunLaws.NothingDropped` | pipe/internal/repository/vector_repository.go:155-158 | When the filter drops nothing, only lists with pairwise distinct hashes commit, and their pairing is right |
| `RunLaws.CommitsExactly` | pipe/internal/repository/vector_repository.go:137-270 | With fresh ids a run commits if and only if no round trip fails, no statement repeats a hash, none of its rows has a taken key, every kept chunk sits at the first vector of its hash, and every answered id is a row or a first vector of the run |
| `RunLaws.CommittedAnswersRight` | migrations/sql/02_vectors_and_chunks.sql:18 | However stale the caches were, a sound run that commits was answered with the table's own pairs: the foreign key lets through only ids that are rows, and no id is a row under a foreign hash |
| `RunLaws.CommittedAnswersKnown` | migrations/sql/02_vectors_and_chunks.sql:18 | However stale the caches were and whatever was paired with what, a run that commits was answered about hashes that are all in the table: an answered id is a row, or a vector of the run itself, and a row comes with its whole batch |
| `RunLaws.SecondCommit` | pipe/internal/worker/pipeline_worker.go:143-151 | When two runs over one document both commit, every position the first gave a row was a duplicate there, fails the quality filter, and had its row lost in the second lookup; asks no more of the first run's answers than that their hashes are in the table |
| `RunLaws.EffectOnce` | pipe/internal/worker/pipeline_worker.go:143-151 | Once a run whose answered hashes were in the table committed rows for a document, no later run over it whose lookup loses no row commits, under whatever ids it was answered or paired |
| `RunLaws.AtMostOneEffect` | pipe/internal/worker/pipeline_worker.go:54-233 | Of any sequence of linked runs over one document, failed ones, stale answers and wrong pairings included, at most one commits rows, as long as no lookup loses a row |
| `RunLaws.RerunOffersEverything` | pipe/internal/worker/pipeline_worker.go:143-151 | A complete later lookup turns every chunk of a committed text into a duplicate, including chunks the quality filter had dropped, whatever pairs the first run was answered with |
| `RunLaws.FreshIdCommitsAgain` | pipe/internal/pipeline/segmenter.go:107-110 | An event whose document id does not parse gets a random one per delivery, and then a redelivery commits a full further copy if and only if it meets no fault and no dangling answer, whatever pairs the first run was answered with |
| `RunLaws.DanglingAnswerAborts` | migrations/sql/02_vectors_and_chunks.sql:18 | A lookup answer that is no row makes the save fail on the foreign key |
| `RunLaws.PoisonedCacheAborts` | pipe/internal/worker/pipeline_worker.go:199-209 | A cached id that never became a row fails every run over a document with that hash while the cache holds it |
| `RunLaws.FailedSaveRepeats` | pipe/internal/worker/pipeline_worker.go:199-209 | A failed save is not retried to success while its registered pair stays in memory |
| `RunLaws.LaterLookup` | pipe/internal/pipeline/deduplicator.go:59-124 | After a committed run whose answered hashes were in the table a later lookup of the same texts misses only hashes whose rows it lost |
| `RunLaws.NotBoth` | migrations/sql/02_vectors_and_chunks.sql:23 | Two runs that would both save one (document, index) position never both commit, whatever their texts |
| `Service.Deliver` | pipe/internal/repository/event_subscriber.go:109-204 | The worker loop around the document worker: it stops where the event and the environment say, is acked as handled exactly when the rows are committed or there was nothing to do, otherwise as the delivery protocol decides, with soundness, and accounting without regard to pairing, kept as in `ProcessDocument` |
| `Service.OneEffectPerEvent` | pipe/internal/repository/event_subscriber.go:160-202 | In any history of a worker: after a call that committed rows, every later call for an event with the same document id, which parses, over the same lines reports failure, unless its lookup loses a row; failed saves, stale cache entries and wrong pairings, before, in between or in these two calls, change nothing |
| `Service.HandleOnce` | pipe/internal/repository/event_subscriber.go:108-205 | A worker that starts on whole batches and placed cache entries, other workers in between: of any list of events, each later delivery of one that committed rows is answered with failure, unless its lookup loses a row |
| `Service.PassingFaultIsFinal` | pipe/internal/repository/event_subscriber.go:160-194 | A save that fails once leaves registered pairs behind; while they stay cached up to the delivery limit every redelivery fails, and the message is settled by delivery max(1, maxDeliveries), dead-lettered or lost |
| `Service.RecoversExactly` | pipe/internal/repository/event_subscriber.go:160-202 | After a failed first delivery the second settles the message as handled if and only if it meets no fault and the tables admit its run, which includes that no answer dangles |
| `Service.NothingRegisteredRecovers` | pipe/internal/repository/event_subscriber.go:160-202 | If the failed run had nothing to register and the caches were right before it, no answer of the second delivery can dangle: it settles the message if and only if it meets no fault, no repeated hash and no taken key |
| `Fleet.StepKeepsInv` | pipe/internal/worker/pipeline_worker.go:127-217 | Each atomic step of any worker (recall, fetch, query, cache, publish, embed, register in memory, register in Redis, save, evict) keeps the fleet invariant, as long as jobs start with right pairs |
| `Fleet.EveryScheduleSafe` | pipe/internal/worker/pipeline_worker.go:54-233 | In every reachable state of any number of interleaved workers whose jobs start with right pairs, every chunk row names the vector row of its own hash, and every cached pair is a row, about to be saved, or stranded by a failed save |
| `Fleet.EveryScheduleConsistent` | pipe/internal/worker/pipeline_worker.go:54-233 | With no condition on the pairing, keys and foreign key hold in every reachable state and rows are only added |
| `Fleet.StepKeepsAccounted` | pipe/internal/worker/pipeline_worker.go:127-217 | Each atomic step of any worker keeps this, rightly paired or not |
| `Fleet.EveryScheduleAccounted` | pipe/internal/worker/pipeline_worker.go:54-233 | With no condition on the pairing: in every reachable state of any number of interleaved workers the table holds whole batches, and every pair in a cache or in a worker's hands has its hash in the table or in the call its id was generated in |
| `Fleet.RightPairsExactly` | pipe/internal/worker/pipeline_worker.go:196-203 | A job starts with right pairs if no kept chunk follows a dropped one and, with distinct new hashes, only then |
| `Fleet.QuietIsCoherent` | pipe/internal/pipeline/deduplicator.go:59-148 | With nobody between registration and save and nothing stranded, both caches are parts of the table |
| `Fleet.StrandsExactly` | pipe/internal/worker/pipeline_worker.go:199-209 | A save strands a registered pair unless it commits without renaming or had registered nothing, and only then |
| `Fleet.AssumptionMet` | pipe/internal/worker/pipeline_worker.go:54-233 | For every world that allows for what the others have registered and not yet saved, or stranded, and for what they register meanwhile, any steps of any workers keep the database and both caches sound for it and only add rows |
| `Fleet.EmptyInv` | pipe/internal/worker/pipeline_worker.go:30-52 | Empty tables and caches and idle workers satisfy the fleet invariant |
| `Counterexamples.WrongPairingCommits` | pipe/internal/worker/pipeline_worker.go:196-203 | Two new chunks, the first dropped, the second kept: the run commits and the row names the dropped chunk's vector |
| `Counterexamples.RenameLeavesStalePair` | pipe/internal/worker/pipeline_worker.go:199-209 | A row for the hash arrives between lookup and save: the run commits, and the pair it registered is no row |
| `Counterexamples.FailureOutlivesItsCause` | pipe/internal/worker/pipeline_worker.go:199-209 | One failed commit, then a redelivery without any fault and with free keys: it fails on the pair the first run registered |
| `Counterexamples.RepeatedTextFails` | pipe/internal/repository/vector_repository.go:155-158 | A text that occurs twice in one batch never commits, with right pairing, free keys and no fault |
| `Counterexamples.FreshDocumentIdDoubles` | pipe/internal/pipeline/segmenter.go:107-110 | One text under two document ids is committed twice |
| `Counterexamples.LostRowDoubles` | pipe/internal/repository/vector_repository.go:80-86 | One document delivered twice, a row lost in the second lookup: both runs commit rows |
| `Counterexamples.LostRowIsMissed` | pipe/internal/repository/vector_repository.go:80-86 | A hash that is in the table and that a successful lookup does not know |
| `Counterexamples.UnseenBreakIsFinal` | pipe/internal/worker/pipeline_worker.go:83-101 | A scan that breaks off unseen after the first of two lines: the first line is committed as the document, and the redelivery of the whole fails |
| `Counterexamples.FailedSaveStrands` | pipe/internal/worker/pipeline_worker.go:199-209 | A failed save that strands a registered pair |
| `Counterexamples.RegistrationBreaksQuietWorld` | pipe/internal/pipeline/deduplicator.go:140-148 | In a world that allows for nothing one registration of another worker makes memory hold what is no row |
| `Deduplicator.ChunkDeduplicator.DeduplicateChunkBatch` | pipe/internal/pipeline/deduplicator.go:59-124 | Three-tier lookup under interference: hashes are stored in the chunks, and the result is exactly `Answer` on memory as it was on entry, Redis as it really was at some time during the call, and the table at some state between entry and return; answers are remembered, sound tiers give rows or pending pairs, accounted ones placed pairs, and both conditions are kept |
| `Deduplicator.AnswerByTier` | pipe/internal/pipeline/deduplicator.go:59-124 | Hash by hash, on what the tiers held: memory's entry if it has one, else Redis's if Redis answers with one that is not nil, else the row's id if there is a row that is not lost, else none |
| `Deduplicator.FailsExactly` | pipe/internal/pipeline/deduplicator.go:104-109 | A lookup fails if and only if the query fails and some hash was not in memory and had no entry in Redis that was answered and not nil |
| `Deduplicator.AnswerCovers` | pipe/internal/pipeline/deduplicator.go:59-124 | A successful lookup keeps what memory said and knows every hash of the batch that was in the table when it began, unless its row was lost |
| `Deduplicator.CoversExactly` | pipe/internal/repository/vector_repository.go:80-86 | The lookup refines the table as it was at the start if and only if no row was lost in the result stream, whose error is never checked, whose hash was not in memory and had no answered entry in Redis |
| `Deduplicator.LookupSandwich` | pipe/internal/pipeline/deduplicator.go:59-124 | With sound answers the result lies between the table at the start and the table at the end, both cut down to the batch, and equals both when nothing changed |
| `Deduplicator.ChunkDeduplicator.AddToCache` | pipe/internal/pipeline/deduplicator.go:189-209 | Bounded first-in first-out insertion: the cache stays exactly the last insertions, blank hashes, nil ids and present hashes change nothing |
| `Deduplicator.SurvivesInsertions` | pipe/internal/pipeline/deduplicator.go:201-208 | An entry is still cached if and only if fewer than capacity insertions followed it |
| `Deduplicator.StillCached` | pipe/internal/pipeline/deduplicator.go:189-209 | A pair inserted before a call is what the memory tier answers in it, as long as fewer than capacity insertions followed and none of them was of its hash |
| `Deduplicator.ChunkDeduplicator.RegisterVectorHash` | pipe/internal/pipeline/deduplicator.go:140-148 | The exact effect on both caches; a sound state gains exactly that pending pair, and a state that is accounted for stays so when the hash belongs to the call of the id |
| `Deduplicator.ChunkDeduplicator.WarmupCache` | pipe/internal/pipeline/deduplicator.go:150-187 | Warm-up succeeds exactly when the limit is not positive or the query works; then every recent row has gone through the memory cache, Redis answers with its id as far as it stores it, and soundness is kept |
| `Deduplicator.ChunkDeduplicator.FromMemory` | pipe/internal/pipeline/deduplicator.go:71-82 | The read-locked pass writes every canonical hash and splits the batch hashes exactly into hits and misses |
| `Deduplicator.ChunkDeduplicator.FromRedis` | pipe/internal/pipeline/deduplicator.go:88-102 | Exactly the entries of missing hashes that Redis holds, answers and that are not nil are taken, each with the id Redis holds, and remembered; exactly the rest stays missing, and sound caches give sound answers |
| `Deduplicator.ChunkDeduplicator.FromTable` | pipe/internal/pipeline/deduplicator.go:104-121 | Exactly the rows of the table at entry for the missing hashes minus the lost ones, or failure exactly when there is something to ask and the query fails; what is found is remembered and written back to Redis as far as Redis stores it |
| `Deduplicator.ChunkDeduplicator.CoherentIsAccounted` | pipe/internal/pipeline/deduplicator.go:59-209 | Caches that are parts of the table are accounted for, whatever batches later ids come in, so coherence is a state to start from |
| `Deduplicator.ChunkDeduplicator.SoundIsCoherent` | pipe/internal/pipeline/deduplicator.go:59-209 | Sound with nothing pending means both caches are parts of the table and every chunk row is faithful |
| `Deduplicator.NothingPending` | pipe/internal/pipeline/deduplicator.go:59-124 | With nothing pending, answers are sound exactly when they are a part of the table |
| `Deduplicator.Redis.GetBatch` | pipe/internal/repository/redis_repository.go:48-99 | The answer is exactly the non-nil entries for the keys answered |
| `Repository.VectorRepository.SaveBulk` | pipe/internal/repository/vector_repository.go:137-270 | All or nothing in batches of 400: commits exactly when no round trip fails and the constraints, stated on the initial tables and the arguments, accept the call; the new state is the upserted table and the remapped rows |
| `Repository.VectorRepository.SaveVectors` | pipe/internal/repository/vector_repository.go:160-211 | The batched upserts go through exactly when no batch repeats a hash and no new hash takes a used id, equal row-by-row upserts, and report the table's id for every hash |
| `Repository.VectorRepository.BuildIdMap` | pipe/internal/repository/vector_repository.go:213-221 | The id map sends exactly the first carrier of each hash to the table's id |
| `Repository.VectorRepository.SaveChunks` | pipe/internal/repository/vector_repository.go:223-261 | The batched inserts go through exactly when the whole list satisfies uniqueness and the foreign key |
| `Repository.VectorRepository.FindVectorIdsByHashesBatch` | pipe/internal/repository/vector_repository.go:55-90 | The table cut down to the asked hashes minus the lost rows |
| `Repository.VectorRepository.FetchRecentVectorHashes` | pipe/internal/repository/vector_repository.go:92-127 | Only rows of the table, and every recent one with a non-empty hash and a non-nil id |
| `Repository.BatchStep` | pipe/internal/repository/vector_repository.go:161-210 | One multi-row statement goes through exactly when the longer prefix is acceptable as a whole, and then equals the row-by-row upserts |
| `Repository.UpsertAllKeepsId` | pipe/internal/repository/vector_repository.go:177-186 | A known hash keeps its id through any list of upserts |
| `Repository.UpsertAllNewId` | pipe/internal/repository/vector_repository.go:177-186 | A new hash gets the id of its first carrier |
| `Repository.UpsertAllEmbedding` | pipe/internal/repository/vector_repository.go:180-184 | The last carrier of a hash supplies the embedding |
| `Repository.UpsertAllFrame` | pipe/internal/repository/vector_repository.go:177-186 | Rows of other hashes are untouched |
| `Repository.UpsertAllKeepsPrimaryKey` | migrations/sql/02_vectors_and_chunks.sql:3-5 | The primary key survives every acceptable list |
| `SaveLaws.SaveKeepsConsistent` | pipe/internal/repository/vector_repository.go:137-270 | A committed save keeps the primary key, both uniqueness constraints and the foreign key |
| `SaveLaws.SaveGrows` | pipe/internal/repository/vector_repository.go:177-186 | A committed save only adds rows, and every hash keeps its id |
| `SaveLaws.SaveKeepsFaithful` | pipe/internal/repository/vector_repository.go:213-237 | If every chunk names an id generated for its own hash, every committed row names the vector row of its own hash |
| `SaveLaws.UpsertKeepsBatches` | pipe/internal/repository/vector_repository.go:161-199 | The upserts of one call bring all hashes of its vectors into the table, so a row always comes with its whole batch |
| `SaveLaws.FaithfulExactly` | pipe/internal/repository/vector_repository.go:213-237 | A saved row names the vector of its own hash if and only if the chunk came in naming its own hash; renaming neither breaks nor repairs it |
| `SaveLaws.FinalId` | pipe/internal/repository/vector_repository.go:202-221 | The final id of a hash is the old one if it was known, else the first carrier's |
| `SaveLaws.ReferenceKnown` | migrations/sql/02_vectors_and_chunks.sql:18 | With fresh ids a saved row satisfies the foreign key if and only if the chunk named an old row or the first vector of some hash |
| `SaveLaws.AcceptsExactly` | pipe/internal/repository/vector_repository.go:137-270 | With fresh ids the constraints accept exactly the calls in which no statement repeats a hash, the chunk keys are unused, and every chunk names a row or the first vector of some hash |
| `SaveLaws.DuplicateHashAborts` | pipe/internal/repository/vector_repository.go:155-158 | A call in which every vector has its chunk and some hash occurs twice never commits |
| `SaveLaws.LaterCarrierNotInserted` | pipe/internal/repository/vector_repository.go:213-221 | The id of a vector that is not the first with its hash never enters the table |
| `Enrichment.NLPPipeline.EnrichChunksParallel` | pipe/internal/nlp/nlp_pipeline.go:38-71 | For every completion order of the goroutines, and with registrations in between: the kept chunks, enriched, in the original order, each with the near-duplicate answer of one state the index went through during the call |
| `Enrichment.NLPPipeline.EnrichChunk` | pipe/internal/nlp/nlp_pipeline.go:73-115 | Kept exactly when text remains after normalizing and passes; then the content is that text, language, token count and entities are those of the text, the keywords spell a ranking of its phrases, the vector is the one a linear scan of the index reports for its signature, if any, and ids, hash, pages and offsets are as they were |
| `Enrichment.NLPPipeline.RegisterChunkVector` | pipe/internal/nlp/nlp_pipeline.go:117-120 | One more index entry, with the text's signature and the vector |
| `Enrichment.PairingExact` | pipe/internal/worker/pipeline_worker.go:196-203 | Positional pairing of kept chunks and vectors is hash-correct if the kept chunks form a prefix and, with distinct hashes, only then |
| `Enrichment.PrefixPositions` | pipe/internal/nlp/nlp_pipeline.go:60-68 | Kept positions are 0, 1, 2, ... if and only if no kept chunk follows a dropped one |
| `Enrichment.KeptInOrder` | pipe/internal/nlp/nlp_pipeline.go:60-68 | The kept positions are strictly increasing and exactly the positions of kept chunks |
| `Segmenter.SegmentDocument` | pipe/internal/pipeline/segmenter.go:93-124 | Each strategy, with its fall-backs, yields the segmentation its declarative description allows, chunk k under the k-th generated id |
| `Segmenter.ExtractParagraphs` | pipe/internal/pipeline/segmenter.go:261-286 | The units are exactly the maximal runs of non-blank lines: their texts trimmed, with one blank between neighbours and nothing else, with their first and last page |
| `Segmenter.ParagraphsUnique` | pipe/internal/pipeline/segmenter.go:261-286 | The lines determine their paragraphs |
| `Segmenter.ExtractSentences` | pipe/internal/pipeline/segmenter.go:288-304 | The trimmed non-empty pieces of every non-blank line, on its page |
| `Segmenter.SentencesExactly` | pipe/internal/pipeline/segmenter.go:288-304 | Complete and in order: every piece of every line becomes one unit, trimmed and on its page, unless it or its line trims to nothing, and nothing else does |
| `Segmenter.SentencesUnique` | pipe/internal/pipeline/segmenter.go:288-304 | The lines determine their sentences |
| `Segmenter.PiecesExact` | pipe/internal/pipeline/segmenter.go:290-299 | A line is cut exactly at its line breaks and at the blanks right after a full stop, exclamation or question mark: the pieces rejoined differ from it at most in those blanks |
| `Segmenter.FullTextExactly` | pipe/internal/pipeline/segmenter.go:128-136 | The full text is the trimmed lines that are not blank, each at the place the lines before it leave, each followed by the separator, and nothing else |
| `Segmenter.FullTextUnique` | pipe/internal/pipeline/segmenter.go:128-136 | The lines determine the full text |
| `Segmenter.SegmentExactTokens` | pipe/internal/pipeline/segmenter.go:127-174 | Windows over the token ids, or paragraphs when there is no encoder, no ids or an encoding error; what this fixes is `SegmentLaws.TokenChunksExactly` |
| `Segmenter.SegmentCharacterBased` | pipe/internal/pipeline/segmenter.go:223-258 | Windows over the full text at their true offsets; what this fixes is `SegmentLaws.CharacterChunksExactly` |
| `SegmentLaws.SegmentationNumbered` | pipe/internal/pipeline/segmenter.go:329-345 | Chunks of a document are numbered from 0 without gaps and carry neither hash nor vector |
| `SegmentLaws.SegmentationDeterministic` | pipe/internal/pipeline/segmenter.go:93-124 | Segmenting the same lines again gives the same chunks up to their generated ids |
| `SegmentLaws.CharacterChunksExactly` | pipe/internal/pipeline/segmenter.go:223-258 | Character mode: each chunk is the text at its offsets, the first begins at 0 and the last ends at the end, all but the last are four times the target long, and neighbours share four times the overlap, or half a chunk when the overlap is no smaller than the target; no chunk exactly for a blank text |
| `SegmentLaws.TokenChunksExactly` | pipe/internal/pipeline/segmenter.go:127-174 | Exact mode on a text that encodes: the chunks are decoded windows from the first id to the last, or the whole text where decoding fails; all but the last hold as many ids as the target, and neighbours share the overlap, or the larger half of a window when the overlap is no smaller |
| `SegmentLaws.ParagraphChunksExactly` | pipe/internal/pipeline/segmenter.go:119-123 | Paragraph mode, and exact mode without an encoder or on a text it cannot encode: the chunks pack the document's paragraphs, and their texts without what they carry over are the paragraphs' texts, none lost, repeated or moved |
| `SegmentLaws.SentenceChunksExactly` | pipe/internal/pipeline/segmenter.go:115-116 | Sentence mode: the same over the document's sentences |
| `SegmentLaws.SegmentationRanges` | pipe/internal/pipeline/segmenter.go:208-212 | For lines in page order every chunk's page range is an interval and ranges never move backwards, in every strategy |
| `SegmentLaws.PagesEndToEnd` | pipe/internal/pipeline/extractor.go:102-122 | The same from the raw text stream through header removal to the chunks |
| `SegmentLaws.CharacterChunksRebuildText` | pipe/internal/pipeline/segmenter.go:237-255 | The first stride of every chunk but the last, then the last chunk, is the full text |
| `Packing.SegmentUnits` | pipe/internal/pipeline/segmenter.go:177-220 | The greedy loop produces the unique packing: chunks close at the first unit that reaches the target or at the end, and begin with the longest suffix that fits the overlap; the text of a chunk is the texts of its units in order with a blank line between neighbours and nothing else; chunk k has the k-th generated id |
| `Packing.CalcOverlapBuffer` | pipe/internal/pipeline/segmenter.go:306-319 | The carried buffer is the longest suffix whose token sum is at most the overlap |
| `Packing.Reconstruction` | pipe/internal/pipeline/segmenter.go:178-220 | Dropping what each chunk carried over and joining the rest gives back the unit list |
| `Packing.ContentsRebuild` | pipe/internal/pipeline/segmenter.go:191-219 | The same for the texts: the chunk texts, each without the units it carried over, with blank lines between them, are all unit texts with blank lines between them |
| `Packing.MetadataExactly` | pipe/internal/pipeline/segmenter.go:203-217 | A chunk begins where its predecessor ended, is as long as its text in bytes, counts the tokens of its text, and spans the pages from its first unit to its last |
| `Packing.TokenBounds` | pipe/internal/pipeline/segmenter.go:186-217 | Only the last chunk may stay under the target; without its last unit a chunk weighs at most max(target - 1, overlap); the carried part fits the overlap and one unit more would not |
| `Packing.SumSplit` | pipe/internal/pipeline/segmenter.go:186-190 | The token sum of a run of units is that of its beginning plus that of the rest |
| `Packing.SumFirst` | pipe/internal/pipeline/segmenter.go:186-190 | One unit more at the front of a run adds the tokens of its text to the sum |
| `Packing.SpansAdvance` | pipe/internal/pipeline/segmenter.go:178-220 | Chunk ends grow strictly, starts weakly, and no unit is skipped |
| `Packing.AtMostOneChunkPerUnit` | pipe/internal/pipeline/segmenter.go:184-220 | Never more chunks than units |
| `Packing.PackingUnique` | pipe/internal/pipeline/segmenter.go:177-220 | Units and settings determine the packing |
| `Domain.JoinLaidOut` | pipe/internal/pipeline/segmenter.go:192-199 | A joined text holds the parts in order, each at the offset that follows from those before it, with the separator between neighbours and nothing else |
| `Domain.LaidOutUnique` | pipe/internal/pipeline/segmenter.go:192-199 | Only one text holds given parts with a given separator in this way |
| `Packing.ChunkPagesInOrder` | pipe/internal/pipeline/segmenter.go:208-212 | Chunks of units in reading order have ordered page ranges |
| `Windows.Cut` | pipe/internal/pipeline/segmenter.go:153-173 | The loop yields exactly the windows [k step, min(k step + width, n)), the last ending at n, and their number is the closed formula |
| `Windows.SharedWithNext` | pipe/internal/pipeline/segmenter.go:321-327 | Neighbouring windows share the configured overlap, or, when that leaves no stride, what half a window leaves; all but the last are full |
| `Windows.CountIsLeast` | pipe/internal/pipeline/segmenter.go:153-173 | The count is the least number of windows that reaches the end |
| `Windows.TerminatesExactly` | pipe/internal/pipeline/segmenter.go:154-172 | The loop ends if and only if the stride is positive or the first window reaches the end |
| `Windows.ExactModeHangsOnlyAtBudgetOne` | pipe/internal/pipeline/segmenter.go:40-60 | Among settings the constructor lets through, exact mode hangs exactly at budget 1 on two or more tokens |
| `Windows.CharacterStepPositive` | pipe/internal/pipeline/segmenter.go:237-238 | Character mode always makes progress |
| `Windows.Reconstruction` | pipe/internal/pipeline/segmenter.go:237-255 | Strides of the non-final windows and the whole last window are the input |
| `Windows.NoWindowInsidePredecessor` | pipe/internal/pipeline/segmenter.go:154-172 | Each window ends beyond its predecessor and shares width - step elements with it |
| `Windows.WindowsUnique` | pipe/internal/pipeline/segmenter.go:154-172 | Input and settings determine the windows |
| `Pages.ExtractFromReader` | pipe/internal/pipeline/extractor.go:81-137 | The scan loop sends exactly what is to be sent of the lines it got to read (`IsExtraction`), whether or not it then reports an error |
| `Pages.ExtractedExactly` | pipe/internal/pipeline/extractor.go:102-122 | Complete: every line without form feeds, and every piece between form feeds that does not trim to nothing, is sent once, in stream order, on page 1 plus the form feeds before it, and nothing else is |
| `Pages.ExtractionUnique` | pipe/internal/pipeline/extractor.go:102-122 | The stream determines what is sent |
| `Pages.ExtractedPrefix` | pipe/internal/pipeline/extractor.go:102-122 | What was sent before a scan broke off is a beginning of what a longer scan sends |
| `Pages.PageProvenance` | pipe/internal/pipeline/extractor.go:104-122 | Every extracted line is a piece of the stream and its page is 1 plus the form feeds before that piece |
| `Pages.ExtractedPagesInOrder` | pipe/internal/pipeline/extractor.go:104-122 | Extracted pages never go back, start at 1 and stay below the number of form feeds plus 1 |
| `Pages.NormalizeLines` | pipe/internal/pipeline/normalizer.go:18-81 | Drops exactly the lines whose trimmed text recurs and cleans the others |
| `Pages.KeptExactly` | pipe/internal/pipeline/normalizer.go:18-81 | In terms of the lines: one goes exactly when there is more than one page, its trimmed text is 6 to 119 bytes long, and at least two lines and half as many as there are pages trim to the same; the others stay in order, cleaned, on their pages |
| `Pages.CountLines` | pipe/internal/pipeline/normalizer.go:26-40 | The count table is exact for header-sized lines, and the page count is the maximum |
| `Pages.KeptIsSubsequence` | pipe/internal/pipeline/normalizer.go:56-78 | An order-preserving subsequence on the old pages in which equal trimmed lines survive together or not at all |
| `MinHash.MinHashLSH.ComputeSignature` | pipe/internal/nlp/minhash_lsh.go:59-91 | Row by row the least hash over the shingle set, 64-bit wrap-around before the modulus; short texts hash whole |
| `MinHash.SignatureExactly` | pipe/internal/nlp/minhash_lsh.go:59-91 | In terms of the words: a row is the least value of its hash on the hashes of three words in a row, or its value on the whole text when there are fewer than three |
| `MinHash.RowHashExactly` | pipe/internal/nlp/minhash_lsh.go:80-84 | A row hash is what is left of a x + b after whole wraps of 64 bits, and of that after whole multiples of the prime |
| `MinHash.SignatureUnique` | pipe/internal/nlp/minhash_lsh.go:76-88 | The signature depends only on the set of shingle hashes |
| `MinHash.SignatureOfUnion` | pipe/internal/nlp/minhash_lsh.go:76-88 | The signature of a union is the pointwise minimum, and only that |
| `MinHash.SignatureBelowPrime` | pipe/internal/nlp/minhash_lsh.go:82 | Every entry is below the prime |
| `MinHash.MinHashLSH.FindNearDuplicate` | pipe/internal/nlp/minhash_lsh.go:93-113 | Equals a linear scan of the history: the earliest entry on the smallest band on which any entry matches, or nothing when none does |
| `MinHash.MinHashLSH.IndexSignature` | pipe/internal/nlp/minhash_lsh.go:115-128 | The history grows by the signature, and every bucket stays the list a scan finds |
| `MinHash.RecallGuarantee` | pipe/internal/nlp/minhash_lsh.go:100-113 | An indexed signature that differs from the query in fewer rows than there are bands is always reported, for any digest |
| `MinHash.RecallBoundIsTight` | pipe/internal/nlp/minhash_lsh.go:100-113 | With as many differing rows as bands, one in each, it is not |
| `MinHash.ReportIsSound` | pipe/internal/nlp/minhash_lsh.go:130-136 | For an injective digest a report means a shared band, and conversely |
| `MinHash.SomeBandAgrees` | pipe/internal/nlp/minhash_lsh.go:37-37 | Pigeonhole over the bands |
| `MinHash.BandsDisjoint` | pipe/internal/nlp/minhash_lsh.go:119-124 | Bands share no row |
| `MinHash.BandFits` | pipe/internal/nlp/minhash_lsh.go:119-124 | Every band lies inside the signature for every configuration |
| `Vectorizer.ProcessSubBatch` | pipe/internal/pipeline/vectorizer.go:94-160 | At most three attempts: succeeds exactly when a usable reply comes before the context ends, with the first usable reply's embeddings in order, and names why it failed |
| `Vectorizer.GenerateBatchEmbeddings` | pipe/internal/pipeline/vectorizer.go:41-92 | Whatever the schedule: succeeds exactly when every sub-batch does, with one vector per chunk in order, carrying the chunk's hash |
| `Vectorizer.EveryBatchExactly` | pipe/internal/pipeline/vectorizer.go:41-92 | All sub-batches succeed exactly when each run of sixteen chunks gets as many embeddings as it has chunks within three calls, before a pause is cut short |
| `Vectorizer.VectorsExactly` | pipe/internal/pipeline/vectorizer.go:141-158 | A chunk's vector has a fresh id, the chunk's hash, and the embedding at the chunk's place in the reply that served its run of sixteen |
| `Vectorizer.StepKeepsInv` | pipe/internal/pipeline/vectorizer.go:63-76 | Each goroutine step keeps the invariant: at most eight slots taken, errors and results accounted for |
| `Vectorizer.SenderNeverBlocks` | pipe/internal/pipeline/vectorizer.go:55-73 | No sender ever waits on the error channel |
| `Vectorizer.SomeStepEnabled` | pipe/internal/pipeline/vectorizer.go:63-78 | Until all goroutines are done one can move |
| `Vectorizer.EveryScheduleSafe` | pipe/internal/pipeline/vectorizer.go:59-79 | Every state of every schedule satisfies the invariant, and schedules are bounded |
| `Vectorizer.FinalState` | pipe/internal/pipeline/vectorizer.go:78-89 | When all are done the slots hold exactly the successful outcomes and an error is present exactly when one failed |
| `Vectorizer.ScheduleIndependent` | pipe/internal/pipeline/vectorizer.go:59-91 | Any two complete schedules end with the same slots and the same verdict |
| `Delivery.HandleMessage` | pipe/internal/repository/event_subscriber.go:109-204 | Both failure paths and the success path take the decision the transition system takes: handled exactly when the message decodes and its handler succeeds; otherwise settled exactly when there is a dead-letter queue and the attempt has reached the limit, and else refused for twice as many seconds as attempts |
| `Delivery.StepKeepsInv` | pipe/internal/repository/event_subscriber.go:91-205 | Push, take and finish keep the invariant of channel, pool and messages |
| `Delivery.SomeStepEnabled` | pipe/internal/repository/event_subscriber.go:83-105 | Channel and pool never wedge each other |
| `Delivery.AttemptsBounded` | pipe/internal/repository/event_subscriber.go:138-171 | With a dead-letter queue no message is delivered more than max(1, maxDeliveries) times |
| `Delivery.EveryScheduleSafe` | pipe/internal/repository/event_subscriber.go:91-205 | Every reachable state satisfies the invariant, and with a dead-letter queue every step uses up some of the work left |
| `Delivery.ScheduleLength` | pipe/internal/repository/event_subscriber.go:91-205 | With a dead-letter queue no schedule of n messages is longer than 3 n max(1, maxDeliveries) steps |
| `Delivery.FateIndependentOfSchedule` | pipe/internal/repository/event_subscriber.go:91-205 | Ending, number of deliveries and total delay of each message do not depend on the schedule |
| `Delivery.EndingExact` | pipe/internal/repository/event_subscriber.go:138-204 | Handled, dead-lettered and lost, each exactly when, for messages that do not decode as for handlers that fail; and no earlier delivery succeeded or could have settled it |
| `Delivery.SettlesUnique` | pipe/internal/repository/event_subscriber.go:108-205 | A message is settled once, in one way |
| `Delivery.RedeliveredForever` | pipe/internal/repository/event_subscriber.go:138-157 | Exactly when an always-failing message is never settled |
| `Delivery.TotalDelay` | pipe/internal/repository/event_subscriber.go:154-155 | The delays before delivery k add up to k (k - 1) seconds exactly as long as no 64-bit product wraps |
| `Delivery.AlwaysFailing` | pipe/internal/repository/event_subscriber.go:160-199 | A message that fails up to the limit is settled there, dead-lettered or lost, after limit (limit - 1) seconds of delay |
| `Delivery.SecondHandled` | pipe/internal/repository/event_subscriber.go:160-202 | After a refused first delivery the second settles the message as handled exactly when it succeeds |
| `Delivery.Drain` | pipe/internal/repository/event_subscriber.go:91-205 | With a dead-letter queue the subscriber settles every message, whatever the scheduling choices |
| `Keywords.ExtractKeywords` | pipe/internal/nlp/keyword_extractor.go:27-127 | The candidate phrases conserve the content words and begin where they should, every phrase has its score, and the result ranks them |
| `Keywords.KeywordsDetermined` | pipe/internal/nlp/keyword_extractor.go:79-126 | Two extractions from one text agree on how many keywords there are and on every score, however maps iterate and ties fall |
| `Keywords.SentencePhrases` | pipe/internal/nlp/keyword_extractor.go:46-76 | No content word is lost, moved or added, and phrases begin exactly where a content word continues none |
| `Keywords.StartsExactly` | pipe/internal/nlp/keyword_extractor.go:44-77 | A phrase begins at a content word exactly when it is the sentence's first or a word that does not vanish when cleaned, and so is a stop word, stands between it and the one before; the content words are exactly those neither empty nor stopping |
| `Keywords.PhrasesDetermined` | pipe/internal/nlp/keyword_extractor.go:44-77 | Words and beginnings determine the phrases |
| `Keywords.CountWords` | pipe/internal/nlp/keyword_extractor.go:79-90 | The two tables hold each word's frequency and degree |
| `Keywords.CountsExactly` | pipe/internal/nlp/keyword_extractor.go:79-90 | A frequency is the word's multiplicity among all words of all phrases |
| `Keywords.LengthSumExactly` | pipe/internal/nlp/keyword_extractor.go:79-90 | The length sum adds up over phrases and counts a phrase's length once per occurrence |
| `Keywords.ScoreExact` | pipe/internal/nlp/keyword_extractor.go:92-98 | Score times frequency is the sum of phrase lengths over the occurrences, and lies between 1 and the longest phrase |
| `Keywords.PhraseScoreBounds` | pipe/internal/nlp/keyword_extractor.go:100-108 | A phrase of m words scores between m and m times the longest phrase |
| `Keywords.PhraseScoreExactly` | pipe/internal/nlp/keyword_extractor.go:100-108 | A phrase scores the sum of its words' scores |
| `Keywords.Rank` | pipe/internal/nlp/keyword_extractor.go:110-126 | Sorted, min(topN, distinct phrases) entries, and no omitted phrase outranks a kept one, for any map order |
| `Keywords.ScoresDetermined` | pipe/internal/nlp/keyword_extractor.go:110-126 | Any two rankings list the same scores |
| `Splitting.SplitSentences` | pipe/internal/nlp/sentence_splitter.go:21-70 | Spans lie end to end, each reaching to its first terminator that is not an honorific's; a blank remainder is skipped |
| `Splitting.SplitExactly` | pipe/internal/nlp/sentence_splitter.go:36-67 | A sentence but the last ends with a full stop, an exclamation or a question mark before white space and not on an honorific; where such a mark ends none, the text since the sentence began ends on an honorific; the result lists the sentences trimmed, without a blank remainder |
| `Splitting.SplitUnique` | pipe/internal/nlp/sentence_splitter.go:36-67 | The text determines its sentences |
| `Splitting.RejoinsText` | pipe/internal/nlp/sentence_splitter.go:36-67 | The spans joined are the text |
| `Splitting.JoinHyphenated` | pipe/internal/nlp/normalizer.go:36-58 | Every non-blank line is in exactly one group, in order; a broken line is joined with exactly the next non-blank line |
| `Splitting.GroupsExactly` | pipe/internal/nlp/normalizer.go:39-56 | A line that ends with a hyphen and has a next line that is not blank is joined with it, the hyphen gone; any other stands alone |
| `Splitting.GroupsUnique` | pipe/internal/nlp/normalizer.go:39-56 | The lines determine the groups: a line that was itself swallowed joins nothing |

## Left out

- Torn reads of the extraction error: it is either seen or not.
- HTTP handlers, `main.go`, configuration, telemetry and deployment files: plumbing without state of its own.
- The ingestion and inference services: straight-line external calls, and one query whose ranking happens in the database.
- The OpenRouter client, NATS, MinIO, `pdftotext` and JSON: each is an input that succeeds or fails; Redis is a map that may lose entries, and Postgres two tables with keys, a foreign key and atomic commit.
- NFKC, SHA-256, MD5, FNV, BPE tokenisation, language detection, entity recognition: functions taken as given, deterministic, injective only where a lemma says so.
- Chunk rows carry the chunk's hash in the model so that properties can name it; the chunks table has no such column.
- Floating point: keyword scores are rationals, embeddings are left uninterpreted, and the quality score is an arbitrary deterministic threshold.
- Document id text and parser version in the metadata, model version, dimensions and timestamps.
- Transaction isolation: a bulk save is one atomic step, so two saves never overlap inside the database; a commit whose outcome the client cannot know counts as failed or as committed.
- Document lock, structure parser, `DeduplicateChunk` and `FindVectorIDByHash`: nothing in the modelled pipeline calls them, or they are the one-element case.
- Shutdown of the subscriber and deliveries that overlap after the 300-second ack wait: no delivery outlives its ack wait here.
- Retry pauses and cache lifetimes as clock time: only the requested delays are added up, and expiry is an arbitrary loss of entries.
- Two attempts of one sub-batch and the retry pause between them are one step of its goroutine in the scheduler's transition system.
- Worker.PipelineWorker.ProcessDocument: takes other workers' steps as `OtherWorkers` allows them between its own; and it is limited to texts on which the segmenter ends; `Windows.ExactModeHangsOnlyAtBudgetOne` states which those are.
- Segmenter.SegmentDocument: is limited to inputs on which the window loop ends, for the same reason.
- Fleet.EveryScheduleSafe: speaks of schedules whose jobs start with right pairs, because a job with a wrong pair commits an unfaithful row (`Runs.RowsExactly`, `Counterexamples.WrongPairingCommits`); `Fleet.EveryScheduleConsistent` is what holds of all schedules.
- Fleet.StepKeepsInv: has the same condition, for the same reason; the caches of the fleet are maps that may forget, without the order of insertion.
- Service.PassingFaultIsFinal: takes it as given that memory still holds the registered pair at each redelivery, and that its id is no row; `Deduplicator.StillCached` says for how long memory does.
- Deduplicator.ChunkDeduplicator.WarmupCache: does not say which rows are the newest, because creation times are left out.
- Repository.VectorRepository.FetchRecentVectorHashes: takes the hashes of the newest rows as an input, for the same reason.
- Splitting.SplitSentences: starts from the trimmed text, and takes the honorific test on the last word as a function of the segment.
- `ExtractTextStream`, the file variant of the scan loop: the same loop over a different reader.
