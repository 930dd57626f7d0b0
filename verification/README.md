# A document-graph server, modelled and proved

The repository is a single-user server that ingests documents, indexes their chunks for search,
draws a graph of connections between them and answers questions with a local language model. This
project models the parts of it whose correctness spans several functions or many steps, and proves
what they are for. `dafny verify dfyconfig.toml` (Dafny 4.11) checks the whole project.

Source lines below are relative to the repository's root.

## The parts

**Ingestion, crashes and recovery** (`World`, `FaissStore`, `Sql`, `Bm25`, `Dedup`, `Invariants`,
`Pipeline`, `PipelineProof`, `Runs`, `Recovery`, `Outcomes`, `Embeddings`, `WriteOrder`,
`ResetLoop`, `ResetExample`, `Overlap`, `OverlapAlone`, `OverlapProof`, `IdReuse`, `OverlapExample`,
`Service`, `Startup`). A document's state is spread over SQL rows, an in-memory vector index with
three id maps, the index file and an in-memory BM25 corpus. `World.State` holds all of it and
`World.Effect` is one atomic write. A job, its failure handler and a delete are lists of effects; a
crash is a prefix of such a list. The classes `FaissVectorStore`, `Database`, `BM25Index` and
`Server` are the code in its own imperative form: `Server` keeps a ghost journal of every write, and
each method is proved to append exactly the specified effects. `Recovery.Restarted` says what a
completed startup leaves, and `Startup.Start` is the startup code proved against it. The invariant
`Recoverable` holds after every prefix of every operation: the vector ids in SQL and those on disk
are then ordered by inclusion, which is why comparing two counts is enough. `ResetLoop` says exactly
when it is not, if the startup itself is cut. `Overlap` is a machine of a worker's run and a delete
that falls into it, step by step; `OverlapProof` is about a delete of the document being ingested
and `IdReuse` about one of another. `Outcomes`, `Embeddings` and `WriteOrder` tell, from the tables,
the index and the search index alone, what each operation and each restart leaves, which vector a
row has, and in what order the stores change.

**Chunking** (`Text`, `Extract`, `Sentences`, `SentenceRules`, `Units`, `UnitLayout`, `Packing`,
`Chunker`, `ChunkLayout`). Builder, section stack, sentence splitter, oversized splitter and packer.
Each loop is a method proved equal to a function, and the coverage and budget theorems are about the
functions. `Text.Tiles` says that spans cover a stretch of text but for whitespace and is carried
through all five stages. The token counter is any function; subadditivity and "every single
character fits" are assumed only where a result names them. `SentenceRules` and `ChunkLayout` say
where sentences and chunks end in terms of the text and the document's own blocks.

**Event stream** (`Broker`, `EventStream`). One writer that appends and then publishes, and one
client that subscribes, replays, drains, loses its connection anywhere and resumes with
Last-Event-ID (section 9.2.4 of the WHATWG HTML Standard), as a state machine over all
interleavings. `StatusBroker` and `Stream` are the code; `Stream`'s methods are proved to be the
machine's steps.

**Graph** (`GraphRecompute`, `Sums`, `Semantic`, `SemanticMatrix`, `Entities`, `GraphEdges`,
`EdgeMeaning`, `GraphService`). The recompute lifecycle as a state machine (non-atomic reads, three
separate writes, failures anywhere, triggers owed by jobs and deletes), the scoring loops against
definitions that know no order of documents, and the two joined in `GraphService`.

**Rate limit, citations, fusion** (`RateLimit`, `LlmServices`, `Markers`, `Citations`,
`CitationMeaning`, `MarkerScan`, `CitationProof`, `CitationRerun`, `Fusion`). The server's marker
grammar takes lists of numbers and the client's single ones; `MarkerScan.Scan` reads a text under
either.

## Where code and documentation differ

- `backend/app/ingestion/broker.py:3-6` says that history lost to overflow is recoverable via
  Last-Event-ID replay. It is recoverable exactly when nothing newer has been received
  (`EventStream.ReplayRecoversExactly`); once a newer event was delivered it is lost for good
  (`EventStream.PassedOverIsLost`, and `EventStream.OverflowCanLose` reaches such a state). The
  model follows the code.
- `backend/app/main.py:160-164`: the reset empties the index in memory and deletes rows one document
  at a time, while the file keeps its old contents until the sweep is over. A second crash inside
  that loop can leave equal counts over different ids (`ResetExample.TwoCrashesCanDisagree`).
  `ResetLoop.SecondStartupExactly` says for every cut when it does: when the documents already
  dropped owned as many ids as the file lacked, and other ones.
- `backend/app/services/document_service.py:161-164` calls deleting a document in mid-ingestion benign,
  because the failure handler cleans up. The handler takes its list of texts to remove from rows that
  are gone by then, and the endpoint takes its own before it deletes the row. If nothing else disturbs
  the run, its texts stay in BM25 until the next restart exactly when the row went after the rows were
  inserted, unless the endpoint both listed the chunks after that and removed their texts after they
  were indexed (`OverlapProof.UndisturbedRunIsConsistentExactly`;
  `OverlapProof.OvertakenRunIsConsistentExactly` for every run). Everything else ends as it should.
  `OverlapExample.StaleTextExample` reaches both outcomes.
- `backend/app/ingestion/queue.py:251-252` allocates vector ids without a lock because the worker is the
  single writer. A delete is a second one: when its rows go before the allocation and the store is purged
  after the upsert of a run that finishes, the purge may take the new document's vectors with it
  (`IdReuse.WovenIsConsistentExactly` says exactly when, `OverlapExample.ReusedIdExample` reaches it).
- `backend/app/llm/qa_prompt.py:136-139` and `frontend/src/features/ask/citations.ts:1-4` promise that
  only single, verified markers are left. Removing a marker can create one: `[[9]1]` becomes `[1]`,
  and `[1[9], 2]` becomes `[1, 2]`, a marker of the server's own grammar (`CitationRerun.NestedExample`,
  `CitationRerun.ListExample`). `CitationProof.CleanedMarkersExactly` gives the exact condition under
  the server's grammar, `CitationProof.CleanedMarksExactly` under the client's.
- `backend/app/core/config.py:111` puts no bound on the limit of calls a minute. With zero, a refused
  call divides by zero (`RateLimit.LimitRaisesExactly`); with a negative one, the refused caller is
  told a time already past (`RateLimit.PositiveLimitExactly`).

## Model

| member | source | states |
|---|---|---|
| Invariants.CountCheckSound | backend/app/main.py:146-149 | In every recoverable state the two counts that startup compares are equal exactly when the vector ids in SQL and on disk are the same set. |
| Runs.CutIsRecoverable | backend/app/ingestion/queue.py:167-322 | From agreement, an upload, a worker run (successful, or failed at any point and cleaned up) or a delete may be cut after any of its writes and the state is recoverable, so the count check is sound there. |
| Runs.OperationKeepsAgreement | backend/app/services/document_service.py:147-178 | A completed upload, worker run (either outcome) or delete ends in agreement: non-duplicate rows, BM25 keys and mapped chunks are one set, ids are a bijection onto it, memory and disk index are equal, rows belong to finished documents, and queued documents wait exactly once. |
| Runs.EveryHistoryAgrees | backend/app/main.py:146-222 | Over every history of completed operations and of operations cut anywhere by a crash, a lost index file or a shutdown and followed by a completed startup, agreement holds at every point between them. |
| Runs.StepKeepsAgreement | backend/app/main.py:246-258 | One event of such a history keeps agreement, the shutdown persist included. |
| Runs.EmptyAgrees | backend/app/main.py:146-222 | The empty installation agrees, so histories can start there. |
| Runs.DeleteIsRecoverable | backend/app/services/document_service.py:155-170 | Every prefix of a delete's writes (row and chunks, store, file, BM25) is recoverable. |
| Runs.DeleteIsConsistent | backend/app/services/document_service.py:155-170 | A whole delete leaves a consistent state without the document. |
| Invariants.ShutdownKeepsRecoverable | backend/app/main.py:257 | Persisting the in-memory index at shutdown, whatever was interrupted, keeps the state recoverable. |
| Invariants.LostFileKeepsRecoverable | backend/app/main.py:150-164 | So does losing the index file. |
| Invariants.BijectionCoversIndex | backend/app/storage/vector/faiss_store.py:40-61 | With a bijection between mapped rows and vector ids, the assigned ids in SQL are exactly the ids the store maps. |
| PipelineProof.InFlightIsRecoverable | backend/app/ingestion/queue.py:233-269 | While a document is in flight its rows may be absent, present without ids or present with ids, and its vectors may be in memory or on disk only once the ids are in SQL; every such combination is recoverable. |
| PipelineProof.PrefixIsRecoverable | backend/app/ingestion/queue.py:198-286 | The state after any number of the pipeline's writes is recoverable. |
| PipelineProof.CleanupIsRecoverable | backend/app/ingestion/queue.py:293-313 | So is the state after any number of the failure handler's writes, from any point where an exception surfaces. |
| PipelineProof.SuccessIsConsistent | backend/app/ingestion/queue.py:198-286 | A finished run adds exactly the new rows, vectors and BM25 texts and is consistent. |
| PipelineProof.FailureRestores | backend/app/ingestion/queue.py:288-322 | A failed run ends as if nothing had happened but for the status: rows, index, file, maps and corpus are those before the run. |
| PipelineProof.FailureIsConsistent | backend/app/ingestion/queue.py:288-322 | A failed and cleaned-up run is consistent. |
| PipelineProof.PipelineReaches | backend/app/ingestion/queue.py:198-286 | The state after the first k writes, in closed form. |
| PipelineProof.CleanupReaches | backend/app/ingestion/queue.py:293-313 | The state after the first m cleanup writes, in closed form. |
| Pipeline.AllocatedIdsAreFresh | backend/app/ingestion/queue.py:255-269 | Ids drawn as max_vector_id()+1+j are distinct and not in the index whenever SQL and index agree, also after deletes made room for reuse. |
| Pipeline.RecordsMatchIds | backend/app/ingestion/queue.py:256-269 | The records sent to the store carry exactly the ids written to SQL, one per kept row, no two alike. |
| Pipeline.BatchHashesDiffer | backend/app/ingestion/queue.py:135-142 | Old and new non-duplicate rows together have pairwise different content hashes. |
| Pipeline.BatchVectorsSeparated | backend/app/ingestion/queue.py:153-163 | Old and new vectors together are pairwise at most the threshold similar. |
| Pipeline.BatchIsGood | backend/app/ingestion/queue.py:233-269 | What a run is about to write is new to the state in every respect the proofs need. |
| Dedup.KeptExactly | backend/app/ingestion/queue.py:117-164 | A draft is kept exactly when its hash is neither stored nor earlier in the batch, no indexed vector exceeds the threshold against it and no earlier kept one does. |
| Dedup.KeptIncreasing | backend/app/ingestion/queue.py:151-163 | Kept drafts stay in document order. |
| Dedup.IsNearIndexed | backend/app/ingestion/queue.py:153-155 | Asking for the single best hit decides whether any indexed vector exceeds the threshold; rests on the store's maps covering its index. |
| Dedup.ExactFlags | backend/app/ingestion/queue.py:135-142 | A draft is an exact duplicate when its hash is stored or occurs earlier in the batch. |
| Dedup.MaxSimilarity | backend/app/ingestion/queue.py:156-158 | The largest similarity to the vectors kept so far, attained by one of them. |
| Dedup.DedupAndEmbed | backend/app/ingestion/queue.py:117-164 | The loops compute exactly the kept drafts; all others are flagged; vectors are aligned with the kept ones. |
| Service.Server.Run | backend/app/ingestion/queue.py:167-322 | The pipeline's writes and, after an exception, the failure handler's, happen in exactly the specified order. |
| Service.Server.Attempt | backend/app/ingestion/queue.py:198-286 | The guarded part of the pipeline writes exactly a prefix of its writes when an exception surfaces, all of them otherwise. |
| Service.Server.IndexRows | backend/app/ingestion/queue.py:233-258 | Rows are inserted, ids allocated above the largest and written to SQL, in that order, before the store is touched. |
| Service.Server.IndexStores | backend/app/ingestion/queue.py:259-286 | Then store, file, BM25 and finally the status. |
| Service.Server.CleanUp | backend/app/ingestion/queue.py:293-313 | The failure handler removes vectors and persists before it removes rows and texts, and marks the document failed last. |
| Service.Server.WorkOnce | backend/app/ingestion/queue.py:100-114 | One turn of the worker, on a document that may have been deleted meanwhile or may fail anywhere, keeps agreement. |
| Service.Server.Delete | backend/app/services/document_service.py:147-178 | The delete endpoint says whether the document existed, removes it from every store in the specified order and keeps agreement. |
| OverlapAlone.RunAlone | backend/app/ingestion/queue.py:198-292 | Left to itself, the machine of overlaps makes the run's writes in their order. |
| OverlapAlone.HandlerAlone | backend/app/ingestion/queue.py:294-315 | And the failure handler's, from whatever state the exception left. |
| OverlapAlone.DeleteAlone | backend/app/services/document_service.py:155-169 | And the delete's. |
| OverlapProof.OvertakenRunLeaves | backend/app/services/document_service.py:155-170 | Over any interleaving of a delete of the document being ingested with its run and the failure handler, the run failing for other reasons or not: rows, ids, vectors, file and maps end as if the document had never been uploaded; the search index keeps its texts exactly when they went in, the handler did not find the rows, and the delete did not find them or was through with the search index before. |
| OverlapProof.OvertakenRunIsConsistentExactly | backend/app/services/document_service.py:161-164 | So such a delete ends consistent if and only if there were no texts to index or somebody took them out again. |
| OverlapProof.UndisturbedRunIsConsistentExactly | backend/app/services/document_service.py:155-170 | For a run that only the delete stops, by the places where the chunks were listed, the row went and the texts were removed: with texts to index it ends inconsistent if and only if the row went after the rows were inserted and not both the listing came after that and the removal after the indexing. |
| OverlapProof.DeletedBetweenExactly | backend/app/services/document_service.py:169-170 | For every batch with texts and any two such places outside an upsert there is a schedule with the row going at the first and the texts removed at the second, and it ends consistent if and only if the removal is the later of the two text updates. |
| OverlapExample.StaleTextExample | backend/app/services/document_service.py:161-164 | Both outcomes are reached from an agreeing state of three documents, with the row going at the same place. |
| IdReuse.WovenLeaves | backend/app/services/document_service.py:159-170 | Over any interleaving of a delete of another document with the run, failing or not: everything ends as if the delete had come first and the run after it, but for vectors that a purge after the upsert took from a run that finished. |
| IdReuse.WovenIsConsistentExactly | backend/app/ingestion/queue.py:251-269 | They end consistent if and only if the run failed, or the store was purged before the upsert, or none of the run's ids was the deleted document's. |
| IdReuse.SharedIdIsLost | backend/app/storage/vector/faiss_store.py:137-150 | Otherwise the new row with such an id is left with neither vector nor mapping. |
| IdReuse.ReusedExactly | backend/app/ingestion/queue.py:255-257 | Ids allocated above the largest one left are the deleted document's exactly when it had one of the next numbers. |
| IdReuse.AllocatedWithRows | backend/app/ingestion/queue.py:255-257 | Ids allocated while the document's rows are still there are never its own. |
| IdReuse.EarlyIdsAreSafe | backend/app/ingestion/queue.py:251-257 | So a run whose ids were given out before the row went ends consistent, whatever the order of the rest. |
| OverlapExample.ReusedIdExample | backend/app/ingestion/queue.py:251-269 | From an agreeing state of three documents, the id of a deleted one is given out again and the new document loses its only vector. |
| Service.Server.Purge | backend/app/services/document_service.py:155-170 | The writes of a delete, in order. |
| Service.Server.Upload | backend/app/services/document_service.py:109-126 | A new row is queued after it exists, and agreement is kept. |
| Recovery.RestartRestoresAgreement | backend/app/main.py:146-222 | A completed startup from any recoverable state restores agreement. |
| Recovery.RestartExists | backend/app/main.py:146-222 | From every durable state with unique ids some completed startup is possible. |
| Recovery.EveryQueuedDocumentWaits | backend/app/main.py:193-216 | After it every queued document is enqueued exactly once, including those the reset re-queued: queued documents are swept before the others are turned into queued ones. |
| Recovery.RestartKeepsFinishedWork | backend/app/main.py:146-164 | When the counts agree, finished documents keep rows, ids and vectors. |
| Recovery.RestartAfterMismatch | backend/app/main.py:150-164 | When they differ nothing derived survives and every document that had not failed is queued. |
| Recovery.CrashInsideSweepIsRecoverable | backend/app/main.py:193-216 | A second crash inside the sweep is harmless as long as no assigned id was missing from the file. |
| ResetLoop.SecondStartupExactly | backend/app/main.py:146-222 | From everything a cut operation can leave, with the startup after it cut wherever it may be (any documents' rows gone, any of those queued again, the file as it was), the next startup restores agreement if and only if the ids lost with the dropped rows are not as many as the file lacked while being other ones. |
| ResetLoop.CountCheckFooledExactly | backend/app/main.py:149 | The count comparison passes two different id sets at exactly those cuts. |
| ResetLoop.TwoCrashesExactly | backend/app/main.py:150-164 | A worker run killed after any k of its writes, then a startup killed after any m writes of its reset loop, newest document first: agreement returns unless the run had assigned ids not yet in the file and the documents reset so far owned exactly as many vectors. |
| ResetLoop.ResetReaches | backend/app/main.py:160-164 | After k writes of the reset loop the first (k+1)/2 documents have lost their rows and the first k/2 are queued. |
| ResetLoop.TwoCrashesExist | backend/app/main.py:146-222 | Every such pair of crashes has an outcome. |
| ResetExample.TwoCrashesCanDisagree | backend/app/main.py:150-164 | Two such crashes from an agreeing state of three documents, the second right after the newest finished one was reset, and a startup after them that does not restore agreement. |
| ResetExample.ExampleOrder | backend/app/storage/sql/document_repo.py:70 | The set-up happens: after seven writes of the worker's run the reset loop lists document 2 before document 1. |
| Startup.ResetDone | backend/app/main.py:160-164 | Finished documents lose their rows and are queued, newest first, in exactly the writes the cuts are taken from. |
| Startup.ListNewestFirst | backend/app/storage/sql/document_repo.py:58-76 | The documents of one status, each once, newest first. |
| Startup.Start | backend/app/main.py:146-222 | The startup code, step by step, leaves exactly a restarted state. |
| Startup.Reconcile | backend/app/main.py:149-164 | The count check and the reset it decides: index and maps emptied, finished documents' rows dropped and statuses queued, the file left alone. |
| Startup.CheckCounts | backend/app/main.py:144-164 | Loading, counting and resetting leave nothing swept yet. |
| Startup.Sweep | backend/app/main.py:193-216 | Interrupted documents lose rows and vectors and are queued; the queue lists statuses in pipeline order, oldest first. |
| Startup.LoadStore | backend/app/main.py:143-148 | The index comes from the file and the maps from SQL's mapped rows. |
| Startup.ListOldestFirst | backend/app/main.py:202-203 | The documents of one status, each once, by creation time. |
| Embeddings.EveryVectorIsItsText | backend/app/ingestion/queue.py:259-269 | Over every history of completed, cut and restarted operations from the empty installation, between any two of them: every id a row carries is in the index and in the file, and stands there for the embedding of that row's own text. |
| Outcomes.FinishedRun | backend/app/ingestion/queue.py:233-292 | A run that ends well marks the first document in line done and stores, for each draft, its own row: place, text, hash, a duplicate exactly if its hash is stored or came earlier or its vector is too close to a stored one or to an earlier indexed one, and otherwise the next id; index and file gain those ids only; every other document, row and vector is as before. |
| Outcomes.FailedRun | backend/app/ingestion/queue.py:294-322 | A run that raises anywhere leaves rows, index, file and search index as they were and the document failed. |
| Outcomes.SkippedRun | backend/app/ingestion/queue.py:168-170 | A document deleted while it waited is taken off the line and nothing else happens. |
| Outcomes.UploadLeaves | backend/app/services/document_service.py:110-126 | An upload adds one queued document at the end of the line and touches nothing else. |
| Outcomes.DeleteLeaves | backend/app/services/document_service.py:147-178 | A delete removes the document, exactly its rows, their vectors from index and file and their texts, and nothing of any other document; a document that is not there changes nothing. |
| Outcomes.FirstComeFirstServed | backend/app/ingestion/queue.py:100-104 | Over any history without a restart, the n-th turn of the worker decides the n-th of all documents that ever waited, in order of arrival, and changes no other document. |
| Outcomes.RestartLeaves | backend/app/main.py:146-222 | What a completed startup makes of any durable state: every document stays, with its time; the interrupted ones, and the finished ones if the two counts differ, are queued and lose rows and vectors; the others keep status, rows and vectors; waiting documents come first, then those interrupted while parsing, chunking, embedding, indexing, older ones first. |
| WriteOrder.RunWritesInOrder | backend/app/ingestion/queue.py:198-292 | At every point between two writes of a run: new rows only while indexing or after, a new vector only when a row has its id, on disk only when the whole index is and the maps cover it, a searchable text only with its vector on disk, and done only when all of that is there for every row. |
| WriteOrder.RunAdvances | backend/app/ingestion/queue.py:182-187 | Every write takes the document from one stage to the next, or keeps it indexing. |
| WriteOrder.HandlerWritesInOrder | backend/app/ingestion/queue.py:294-315 | At every point of the failure handler: as long as one of the run's vectors is in memory or on disk its row is there, and the document has failed only when nothing of the run is left. |
| WriteOrder.DeleteInOrder | backend/app/services/document_service.py:155-169 | At every point of a delete: nothing is missing while the document is listed, no row is left once it is not, a vector is off the disk only when it is out of memory and maps, and texts go when the file is written. |
| WriteOrder.UploadInOrder | backend/app/services/document_service.py:110-126 | No id waits whose document is not stored. |
| FaissStore.FaissVectorStore.Upsert | backend/app/storage/vector/faiss_store.py:74-87 | Index and maps gain exactly the records; with fresh ids the representation invariant (index ids = keys of both maps = union of the per-document sets, which are the inverse image of the owner map) is kept. |
| FaissStore.FaissVectorStore.DeleteByDocument | backend/app/storage/vector/faiss_store.py:137-150 | Exactly the document's ids leave index and maps, the number of vectors removed is returned, and the invariant is kept. |
| FaissStore.FaissVectorStore.Load | backend/app/storage/vector/faiss_store.py:40-61 | Index from the file, maps from the mappings given, and the maps agree with each other. |
| FaissStore.FaissVectorStore.Reset | backend/app/storage/vector/faiss_store.py:63-72 | Empty index and maps; the file is left. |
| Recovery.PersistedStateReturns | backend/app/storage/vector/faiss_store.py:152-159 | What persisting is for: once the index is written, stopping and starting again gives back every table, the index and its maps, the BM25 corpus and the waiting documents. |
| FaissStore.FaissVectorStore.Query | backend/app/storage/vector/faiss_store.py:89-117 | Hits are the chunks and scores of the ids the over-fetch, filter and cut select from the full ranking. |
| FaissStore.QueryIsPrefixOfRestrictedRanking | backend/app/storage/vector/faiss_store.py:102-117 | Those ids are a prefix of the ranking restricted to the allowed documents; exactly its top_k whenever ntotal <= 4*top_k, short of it exactly when the fetched part holds fewer than top_k allowed ids and misses one; unfiltered it is the exact top min(top_k, ntotal). |
| FaissStore.HitsExactly | backend/app/storage/vector/faiss_store.py:102-117 | The k-th hit is the id that is allowed, has exactly k allowed ids before it in the ranking, and stands among the first 4 * top_k with a filter, top_k without; every such id is a hit. |
| FaissStore.MapsAgreeAfterAdd | backend/app/storage/vector/faiss_store.py:83-87 | Adding fresh records keeps the maps in agreement. |
| FaissStore.MapsAgreeAfterDelete | backend/app/storage/vector/faiss_store.py:140-149 | Removing a document's ids keeps them in agreement. |
| Sql.MaxVidUnique | backend/app/storage/sql/chunk_repo.py:54-57 | max_vector_id is the largest assigned id, or -1: anything meeting the definition is that number. |
| Sql.Database.MaxVectorId | backend/app/storage/sql/chunk_repo.py:54-57 | Computes it. |
| Sql.Database.AssignVectorIds | backend/app/storage/sql/chunk_repo.py:59-70 | Updates chunk by chunk: listed chunks that exist get their ids, nothing else changes, and ids that are distinct and in no row leave the column unique. |
| Sql.Database.ExistingContentHashes | backend/app/storage/sql/chunk_repo.py:72-82 | A given hash is returned if and only if some row that is not itself a duplicate carries it. |
| Sql.Database.DeleteByDocument | backend/app/storage/sql/chunk_repo.py:102-105 | A row stays if and only if it is another document's, and the returned count is the number that went. |
| Sql.Database.ListMapped | backend/app/storage/sql/chunk_repo.py:84-91 | Every non-duplicate row with an id, once, with its id and owner. |
| Sql.Database.DeleteDocument | backend/app/storage/sql/document_repo.py:95-98 | Says whether the document was there; its rows cascade, so the foreign key still holds, and where there was no document nothing changes. |
| Bm25.TokensExactly | backend/app/search/bm25.py:26-33 | The tokens of a text are the longest runs of letters and digits of its lower-case form, in order. |
| Bm25.BM25Index.Rebuild | backend/app/search/bm25.py:42-45 | Corpus replaced; the published snapshot is the corpus. |
| Bm25.BM25Index.Add | backend/app/search/bm25.py:47-51 | Corpus extended; the published snapshot is the corpus. |
| Bm25.BM25Index.Remove | backend/app/search/bm25.py:53-57 | Corpus reduced; the published snapshot is the corpus. |
| Extract.DocBuilder.Add | backend/app/ingestion/extractors/base.py:53-74 | A stripped, non-empty text becomes one block whose offsets name exactly its slice; separators belong to no block; blocks in order cover the text but for whitespace. |
| Extract.DocBuilder.Build | backend/app/ingestion/extractors/base.py:76-77 | The blocks' texts with a blank line between any two, and the blocks, still exact and covering. |
| Extract.StackIsOpenPath | backend/app/ingestion/extractors/base.py:90-96 | The popping loop's stack is exactly the headings with no later heading of the same or a smaller level, in order, with strictly increasing levels. |
| Extract.SectionTracker.OnHeading | backend/app/ingestion/extractors/base.py:90-93 | Each heading moves the stack to that of the longer heading sequence. |
| Sentences.SentencesLoseNothing | backend/app/ingestion/chunker.py:67-104 | Sentence spans are in order and disjoint, start and end with text, contain no boundary, and leave out only whitespace. |
| Sentences.SplitSentences | backend/app/ingestion/chunker.py:67-104 | The loops compute those spans. |
| Sentences.BoundaryExactly | backend/app/ingestion/chunker.py:78-90 | A position is a boundary if and only if a whole run of terminal punctuation ends there, whitespace follows, and neither an abbreviation, an initial nor a following lower-case letter suppresses it. |
| Sentences.FindBoundaries | backend/app/ingestion/chunker.py:78-90 | The loop finds exactly those. |
| SentenceRules.EndsExactly | backend/app/ingestion/chunker.py:78-90 | The suppression rule, by positions: the nearest word before reads, between dots and capitals aside, like one of the abbreviations; or the run is one dot after a single capital; or the next non-space is a lower-case letter. |
| SentenceRules.SentencesExactly | backend/app/ingestion/chunker.py:67-104 | The sentences of a text are trimmed, in order and lose only whitespace; each but the last ends where those rules say, and none runs across such a place. |
| Units.HalvesPartitionTheWord | backend/app/ingestion/chunker.py:115-119 | char_halves cuts its word into non-empty pieces that join up without gap or overlap; the recursion ends on the span's length. |
| Units.HalvesFit | backend/app/ingestion/chunker.py:115-119 | Each piece fits the target or is a single character. |
| Units.HalvedOnlyIfTooLong | backend/app/ingestion/chunker.py:115-119 | Each piece is the whole word or one half of a stretch of it that did not fit. |
| Units.SectionUnitsTile | backend/app/ingestion/chunker.py:145-167 | A section's units, oversized ones split, are in order and leave out only whitespace. |
| Units.UnitsWithinBudget | backend/app/ingestion/chunker.py:161-167 | If every single character costs at most the target, so does every unit. |
| Units.UnitsCover | backend/app/ingestion/chunker.py:145-167 | With a counter subadditive over joining, a unit is charged at least what its text counts. |
| Units.SplitOversized | backend/app/ingestion/chunker.py:107-142 | The greedy word packing loop computes the split pieces. |
| Units.MakeSectionUnits | backend/app/ingestion/chunker.py:145-167 | The two loops compute the section's units. |
| UnitLayout.GrowIsGreedy | backend/app/ingestion/chunker.py:130-139 | A piece of an oversized unit ends only where its words and the next one would exceed the target. |
| Packing.SectionRunsAreGood | backend/app/ingestion/chunker.py:198-253 | Every chunk is a contiguous run of units: new units after carried ones, greedily maximal, with the longest affordable overlap carried on. |
| Packing.RunAt | backend/app/ingestion/chunker.py:201-253 | Of each chunk: carried overlap within the budget, chunk sum plus the next new unit exceeds the target, sum within the target if every unit is, the next chunk starts strictly later and begins its new units where this one ended. |
| Packing.RunsApart | backend/app/ingestion/chunker.py:201-253 | Newly consumed parts follow each other, starts strictly increase, and chunks two apart share nothing. |
| Packing.UnitInOneOrTwoChunks | backend/app/ingestion/chunker.py:201-253 | Every unit is new in exactly one chunk and otherwise only carried into the next. |
| Packing.OverlapIsBounded | backend/app/ingestion/chunker.py:182-253 | Total chunk cost is between the unit cost and that plus (chunks-1) times the overlap budget. |
| Packing.RecountWithinSum | backend/app/ingestion/chunker.py:224-228 | With a subadditive counter the recount of joined units is at most their sum. |
| Chunker.ChunkingLosesNothing | backend/app/ingestion/chunker.py:170-255 | Every non-whitespace character lies in chunks of exactly one section, there in one chunk or two consecutive ones. |
| Chunker.CharInOneOrTwoChunks | backend/app/ingestion/chunker.py:170-255 | The same on the flat list of chunks. |
| Chunker.ChunkIsSlice | backend/app/ingestion/chunker.py:218-236 | A chunk's text is the slice its offsets name, recounted and hashed, and lies within its section. |
| Chunker.ChunksWithinBudget | backend/app/ingestion/chunker.py:201-216 | If every character fits, each chunk's units sum to at most the target. |
| Chunker.RecountWithinBudget | backend/app/ingestion/chunker.py:224-228 | With a subadditive counter the recounted token_count is at most the unit sum, hence within the target. |
| Chunker.OffsetsIncrease | backend/app/ingestion/chunker.py:218-253 | Starts and ends strictly increase within a section. |
| Chunker.SectionCostBounded | backend/app/ingestion/chunker.py:182-253 | The overlap bound, for the section the chunker packs. |
| Chunker.SectionsPartition | backend/app/ingestion/chunker.py:187-191 | Sections are non-empty and concatenate to the blocks. |
| ChunkLayout.HeadingsAreWalls | backend/app/ingestion/chunker.py:187-191 | No chunk begins before a heading and ends after its start. |
| ChunkLayout.SectionOfChunk | backend/app/ingestion/chunker.py:194-195 | A chunk carries the section of the last heading at or before its start, or of the document's first block if there is none. |
| ChunkLayout.EndsOnlyWhenFull | backend/app/ingestion/chunker.py:201-216 | A chunk not followed by a heading ends only where its units and the next one would exceed the target. |
| ChunkLayout.SentencesStayWhole | backend/app/ingestion/chunker.py:157-166 | No chunk begins or ends inside a sentence that fits the target. |
| ChunkLayout.HeadingsStayWhole | backend/app/ingestion/chunker.py:152-156 | Nor inside a heading that does. |
| ChunkLayout.WordsStayWhole | backend/app/ingestion/chunker.py:121-142 | Nor, however long the sentence, inside a word that does. |
| ChunkLayout.OverlapByRatio | backend/app/ingestion/chunker.py:238-253 | Consecutive chunks of a section share the longest run of the first one's new units, short of all of them, that is within the ratio of the target and leaves room for the next unit. |
| ChunkLayout.PagesOfChunk | backend/app/ingestion/chunker.py:221-232 | A chunk's pages are the least and the greatest page of the blocks it overlaps. |
| Chunker.ShedLoop | backend/app/ingestion/chunker.py:202-208 | Shedding from the front stops at the first suffix that fits beside the next unit. |
| Chunker.FillLoop | backend/app/ingestion/chunker.py:209-216 | Units are added while they fit. |
| Chunker.CarryLoop | backend/app/ingestion/chunker.py:246-253 | The longest affordable proper suffix of the new units is carried. |
| Chunker.PackSection | backend/app/ingestion/chunker.py:199-253 | The packing loop ends, for every overlap ratio below one half, with exactly the specified chunks. |
| Chunker.ChunkDocument | backend/app/ingestion/chunker.py:170-255 | The whole chunker computes the specified chunks of any document the builder can build. |
| Broker.StatusBroker.Publish | backend/app/ingestion/broker.py:41-47 | Every subscriber of the document and every global one gets the event at the end of its queue; a queue with room loses nothing, a full one exactly its oldest entry; queues stay within maxsize. |
| Broker.StatusBroker.Subscribe | backend/app/ingestion/broker.py:24-31 | A fresh, empty, bounded queue joins exactly the right subscriber set. |
| Broker.StatusBroker.Unsubscribe | backend/app/ingestion/broker.py:33-39 | The queue leaves its set, other documents' sets are untouched, and no empty set is kept. |
| EventStream.Stream.Replay | backend/app/api/routes/documents.py:80-85 | Reading the history after the client's id is the protocol's read step. |
| EventStream.Stream.SendNext | backend/app/api/routes/documents.py:85-89 | One replayed event: sent, watermark moved, stream closed on a terminal one. |
| EventStream.Stream.Take | backend/app/api/routes/documents.py:90-98 | One queued event: dropped at or below the watermark, else sent, and a terminal one closes the stream. |
| EventStream.IdsStrictlyIncrease | backend/app/api/routes/documents.py:74-100 | Over any interleaving, overflow and number of reconnects, ids received strictly increase, lie past the starting id and come from the log. |
| EventStream.NothingMissedWithoutOverflow | backend/app/api/routes/documents.py:77-98 | Unless an event was delivered from a queue that had dropped one, the client has received the first events after its starting id, with no gap and no duplicate, across reconnects. |
| EventStream.NothingMissedWithRoom | backend/app/ingestion/broker.py:41-47 | If the queue had room at every publication, the client has received the first events after its starting id with no gap, and all of them once it is live, drained and the writer idle. |
| EventStream.DrainedClientIsComplete | backend/app/api/routes/documents.py:77-98 | A live client that drained its queue while the writer is idle has received everything after its starting id. |
| EventStream.QueueIsNewestSuffix | backend/app/ingestion/broker.py:41-47 | The queue always holds a contiguous newest suffix of what was published, of length at most maxsize. |
| EventStream.ClosedAtFirstTerminal | backend/app/api/routes/documents.py:88-97 | Over any number of connections lost and resumed, a client that the server has closed holds exactly the events after its starting id up to and including the first terminal one. |
| EventStream.OpenUntilTerminal | backend/app/api/routes/documents.py:88-97 | A client that never reopens an ended stream is closed exactly when it has received a terminal event. |
| EventStream.ReplayRecoversExactly | backend/app/api/routes/documents.py:85 | A reconnect replays a missing event if and only if no newer one was received. |
| EventStream.PassedOverIsLost | backend/app/ingestion/broker.py:1-7 | An event passed over by a newer one never arrives, over any number of reconnects. |
| EventStream.OverflowCanLose | backend/app/ingestion/broker.py:1-7 | Such a loss is reachable: a run with a queue of size one that ends with an event passed over. |
| EventStream.ReconnectDelivers | backend/app/api/routes/documents.py:68-90 | From every point of every run a client that reconnects can receive everything newer than what it has, up to the first terminal event. |
| EventStream.NothingLostForGood | backend/app/api/routes/documents.py:68-90 | So as long as no event was delivered out of a queue that had dropped one, it can end with every event after its starting id. |
| EventStream.ResumeCompletes | backend/app/storage/sql/event_repo.py:43-53 | Reading on from the last event of a prefix yields exactly the rest. |
| GraphRecompute.LatestWins | backend/app/services/graph_service.py:147-173 | In one process that starts matching (or with a recompute asked for), whatever is interleaved and whatever failed before: with every trigger fired, none waiting or running and the last one successful, stored edges and analyses are ones the scoring makes of the current done corpus. |
| GraphRecompute.StepKeepsInv | backend/app/services/graph_service.py:168-246 | While nothing is owed or pending, what the running recompute has read and written so far agrees with the corpus as it is now, although it reads document by document. |
| GraphRecompute.BackgroundKeepsView | backend/app/ingestion/queue.py:233-313 | Uploads, in-flight ingestion and its cleanup do not change what a recompute sees. |
| GraphRecompute.NoDanglingEver | backend/app/services/document_service.py:171-176 | At every moment stored edges and analyses name existing documents only. |
| GraphRecompute.UndisturbedWritesSucceed | backend/app/services/graph_service.py:243-245 | The same for any scoring that names documents of its input only. |
| GraphRecompute.BuildDocVectors | backend/app/services/graph_service.py:274-304 | Fetching all vectors in one flat call and regrouping them by chunk id loses and mixes nothing. |
| GraphService.RecomputeLocked | backend/app/services/graph_service.py:168-245 | Without interference a recompute (rows, vectors, entities, topics, scores, edges, three writes) stores under each pair of done documents that passes the threshold its edge, and nothing else, whatever was stored before. |
| GraphService.StoredGraphIsCurrent | backend/app/services/graph_service.py:147-173 | Latest wins, for the real scoring: over all interleavings, once quiescent after a success, the stored edges are exactly those of the current done corpus. |
| GraphService.ScoreCorpus | backend/app/services/graph_service.py:199-237 | Entities, topics, scores and edges of the rows read, composed. |
| GraphService.UndisturbedRecomputeSucceeds | backend/app/services/graph_service.py:243-245 | A recompute nobody overtakes never breaks a foreign key, because the real scoring names documents of its input only. |
| GraphRecompute.GraphTables.UpsertMany | backend/app/storage/sql/edge_repo.py:31-54 | Delete-then-insert of the listed pairs: they are replaced, all others kept. |
| GraphService.ScoredVectorsExactly | backend/app/services/graph_service.py:274-304 | A document is scored on exactly the vectors the index holds for its own chunks, if it is done. |
| GraphService.ScoredTextsExactly | backend/app/services/graph_service.py:182-204 | Entities and topics come from the texts of all chunks of the done documents, with a vector or without. |
| EdgeMeaning.CombinedColumn | backend/app/graph/combiner.py:64-70 | The stored combined score of every edge is the weighted sum of its own three columns and reaches the threshold; the topic column is the pair's. |
| EdgeMeaning.PassesExactly | backend/app/services/graph_service.py:340-343 | A pair is linked if and only if the weighted sum of its three scores reaches the threshold. |
| EdgeMeaning.OneSignalDecides | backend/app/graph/combiner.py:64-70 | With only one weight positive, a pair is linked if and only if that signal reaches the threshold over the weight. |
| EdgeMeaning.SemanticScoreExists | backend/app/graph/semantic.py:73-101 | Every pair of documents has an overlap, and all its overlaps have one score. |
| EdgeMeaning.SemanticColumn | backend/app/graph/semantic.py:84-101 | The semantic column is the mean of the similarities listed as evidence, as a share of the calibration range; there is no evidence exactly when a document has no vectors. |
| EdgeMeaning.EntityColumn | backend/app/graph/entities.py:145-153 | The entity column is the weight of the shared entities over that of all of both documents'. |
| EdgeMeaning.SharedColumn | backend/app/graph/entities.py:154-167 | The listed entities are shared ones with their own weight and counts, each once, heaviest first and then by text; one is left out only when 25 at least as heavy are listed. |
| Values.DotOfParts | backend/app/graph/semantic.py:64-70 | The inner product adds up over the parts of two vectors. |
| Values.DotOfOne | backend/app/graph/semantic.py:64-70 | And is the product where there is one component. |
| Semantic.CalibrateMeaning | backend/app/graph/semantic.py:38-45 | Within [0, 1], monotone, 0 exactly up to the floor and 1 exactly from the ceiling. |
| Semantic.OverlapFlips | backend/app/graph/semantic.py:64-101 | The overlap of swapped documents is the same with its evidence turned round. |
| Semantic.OverlapScoreUnique | backend/app/graph/semantic.py:81-100 | However ties are broken, raw mean, score and number of evidence pairs are the same. |
| Sums.BestTotalsAgree | backend/app/graph/semantic.py:81-86 | Two choices of k values that no value left out beats have the same total. |
| SemanticMatrix.ArgTop | backend/app/graph/semantic.py:81-85 | Selection returns k distinct indices, best first, and no index left out beats one of them. |
| SemanticMatrix.UnravelInverts | backend/app/graph/semantic.py:87-97 | Division and remainder undo row-major flattening. |
| SemanticMatrix.RavelAt | backend/app/graph/semantic.py:82 | Entry p of the flattened block is block[p / nb][p % nb]. |
| SemanticMatrix.BlockIsPair | backend/app/graph/semantic.py:62-70 | The block sliced out by the offsets holds exactly the similarities of that pair's chunks. |
| SemanticMatrix.SemanticOverlaps | backend/app/graph/semantic.py:48-102 | Every pair, in input order and nothing else, gets the overlap of its two documents. |
| Entities.JaccardMeaning | backend/app/graph/entities.py:131-153 | Symmetric, within [0, 1], zero exactly when nothing is shared, one exactly when both have the same non-empty entities. |
| Entities.WeightsPositive | backend/app/graph/entities.py:111-126 | The smoothing keeps every entity's weight positive. |
| Entities.IdfMeaning | backend/app/graph/entities.py:119-126 | An entity that one in x documents mentions weighs log(1 + x). |
| Entities.RarerWeighsMore | backend/app/graph/entities.py:111-117 | With an increasing logarithm, the fewer documents mention an entity, the more it weighs. |
| Entities.CountDocuments | backend/app/graph/entities.py:121-125 | The loops count, for every entity, the documents that mention it. |
| Entities.EntityOverlapFlips | backend/app/services/graph_service.py:367-377 | Read the other way round the overlap has the same score and its counts exchanged. |
| Entities.Score | backend/app/graph/entities.py:131-167 | The weighted Jaccard score over the exact weights, and the shared entities by rounded weight then text, cut at 25, each with its rounded weight and its own two counts. |
| GraphEdges.BuildEdges | backend/app/services/graph_service.py:319-365 | Right edges only, one for each unordered pair whose combined score reaches the threshold, none twice; every part read from source to target. |
| GraphEdges.ScoreAndBuild | backend/app/services/graph_service.py:307-365 | The same from document vectors: matrix scoring and edge building composed. |
| GraphEdges.OneEdgePerPassingPair | backend/app/services/graph_service.py:330-344 | An unordered pair has exactly one edge if its combined score reaches the threshold and none otherwise. |
| GraphEdges.EdgesIgnoreOrder | backend/app/services/graph_service.py:319-365 | Built from the same documents in any two orders, ties broken in any way, the edges are the same pairs with the same scores. |
| GraphEdges.EdgeEvidence | backend/app/services/graph_service.py:355-360 | Evidence `a` is a chunk of the source and `b` of the target, each similarity is that pair's own, and no pair left out beats one listed. |
| GraphEdges.PassesFlips | backend/app/services/graph_service.py:332-344 | Whether two documents are linked does not depend on which comes first. |
| RateLimit.TokenBucket.TryAcquire | backend/app/core/ratelimit.py:29-37 | Refill up to the capacity, then grant and charge, or refuse with the time missing; at rate zero a refusal divides by zero. |
| RateLimit.GrantedInWindow | backend/app/core/ratelimit.py:29-37 | Over any trace on a monotone clock, cost granted in any window is at most the capacity plus rate times its length. |
| RateLimit.GrantedExactly | backend/app/core/ratelimit.py:29-37 | After any trace on a monotone clock, a call is granted if and only if its cost and all granted since the start keep within what was at hand and flowed in, and its cost and all granted since any earlier call (and alone) within a full bucket and what flowed in since. |
| RateLimit.RetryAfterIsExact | backend/app/core/ratelimit.py:29-37 | For a cost within the capacity and however many refused calls in between, a call is granted exactly when retry_after has passed. |
| RateLimit.AboveCapacityNeverGranted | backend/app/core/ratelimit.py:33-37 | A cost above the capacity is never granted, so its retry_after is never right. |
| RateLimit.RaisesExactly | backend/app/core/ratelimit.py:29-37 | After any trace, a call raises if and only if the rate is zero and what earlier calls left does not cover its cost. |
| RateLimit.LimitRaisesExactly | backend/app/main.py:130-132 | For the bucket made from the configured limit, some call raises if and only if the limit is zero. |
| RateLimit.PositiveLimitExactly | backend/app/main.py:130-132 | Every refusal names a time still to come if and only if the limit is positive. |
| LlmServices.Services.Explain | backend/app/services/explanation_service.py:87-144 | A token is charged exactly for a request that needs the model; cache hits, templates and missing edges are free; what is cached and returned. |
| LlmServices.Services.Ask | backend/app/services/answer_service.py:53-115 | No hits or no model cost nothing; the rest is charged before inference. |
| LlmServices.Services.Template | backend/app/services/explanation_service.py:146-165 | The template path never touches the bucket. |
| LlmServices.GenerationsBounded | backend/app/services/explanation_service.py:97-117 | Explanations and answers together start the model in any window at most capacity plus rate times its length often. |
| Citations.ParseCitations | backend/app/llm/qa_prompt.py:132-158 | One pass over the leftmost matches: kept numbers rewritten as single markers, others removed, distinct kept numbers collected in order of first appearance, then the whitespace clean-up. |
| CitationMeaning.MarkerExactly | backend/app/llm/qa_prompt.py:50-52 | A text begins with a marker exactly if it begins with a bracket, numbers separated by single commas with any whitespace, and the closing bracket; and then with that marker only. |
| CitationMeaning.RewrittenExactly | backend/app/llm/qa_prompt.py:143-155 | The answer falls into markers and single characters no marker starts at, left to right; each marker gives way to one marker for each number in 1..len(included), in order, each character stays, and those numbers are the citations. |
| CitationMeaning.TidyUpExactly | backend/app/llm/qa_prompt.py:156-157 | The clean-up drops each run of blanks before a stop, keeps a single blank, makes a longer run one space, takes whitespace off the ends and changes nothing else. |
| CitationProof.CleanedMarkersExactly | backend/app/llm/qa_prompt.py:132-158 | Under the server's own grammar, the markers of the cleaned answer are single numbers and exactly the verified ones, in order, if and only if no stripped marker stood inside a bracket pair whose other characters make up a marker. |
| CitationProof.CleanedMarksExactly | frontend/src/features/ask/citations.ts:1-8 | The same for the single-number markers the client splits at, with the condition on single numbers. |
| CitationProof.ClientConditionFollows | frontend/src/features/ask/citations.ts:1-4 | The server's condition implies the client's. |
| CitationRerun.SecondPassChangesNothing | backend/app/llm/qa_prompt.py:132-158 | Under the server's condition, verifying a verified answer again changes neither text nor list. |
| CitationProof.VerifyAndSplit | frontend/src/features/ask/citations.ts:10-24 | Under the client's condition every marker shown names an included passage, the list is their distinct values in order of first appearance, and rendering the segments gives the cleaned answer back character for character; under the server's, those are also all the markers its own grammar finds. |
| CitationRerun.NestedExample | backend/app/llm/qa_prompt.py:145-155 | `[[9]1]` with one passage leaves a marker `[1]` the list does not have. |
| CitationRerun.ListExample | backend/app/llm/qa_prompt.py:145-155 | `[1[9], 2]` with one passage leaves `[1, 2]`, which the server's own grammar takes for a marker. |
| CitationProof.FirstSeenMeaning | backend/app/llm/qa_prompt.py:143-154 | The list is distinct, has all markers and nothing else, ordered by first appearance. |
| CitationProof.MarksInRange | backend/app/llm/qa_prompt.py:148-151 | Every kept marker lies in 1..len(included). |
| Markers.SplitAnswer | frontend/src/features/ask/citations.ts:10-24 | Citations are the text's markers in order, no text segment is empty, and segments render back to the text when no marker has leading zeros. |
| Markers.TidyUpKeepsMarks | backend/app/llm/qa_prompt.py:156-157 | The whitespace clean-up neither makes nor breaks a single-number marker. |
| MarkerScan.TidyUpKeepsScan | backend/app/llm/qa_prompt.py:156-157 | Nor a marker of either grammar, with all its numbers. |
| MarkerScan.ScanIsTokens | backend/app/llm/qa_prompt.py:155 | The markers found by scanning are the matches of the server's substitution. |
| MarkerScan.ScanIsMarks | frontend/src/features/ask/citations.ts:8-14 | With single numbers only, they are the markers the client splits at. |
| Markers.TidyUpMeaning | backend/app/llm/qa_prompt.py:156-157 | It loses nothing but whitespace and leaves no double blank, no blank before a stop and no whitespace at the ends. |
| Markers.ValueOfDec | frontend/src/features/ask/citations.ts:17 | Reading a written number gives the number back. |
| Fusion.ByRank | backend/app/search/fusion.py:24-29 | Each id maps to its best rank and the score there. |
| Fusion.RrfFuse | backend/app/search/fusion.py:32-65 | Each id of the union once, with its ranks and fused score, in the sort order. |
| Fusion.HitSays | backend/app/search/fusion.py:46-63 | A hit has the first place and score of its id in each list, or none, and a fused score whose product with the denominators is the weighted sum: w * (k + s) + (1 - w) * (k + d) over (k + d) * (k + s) for an id in both lists. |
| Fusion.FusionUnique | backend/app/search/fusion.py:39-65 | The result is a function of the inputs: walking the key set in another order changes nothing. |
| Fusion.EachIdOnce | backend/app/search/fusion.py:45-63 | Every id of either list occurs, and only once. |
| Fusion.Dominates | backend/app/search/fusion.py:48-64 | A chunk no worse in both lists and better in one with positive weight comes first. |
| Fusion.ExtremeWeights | backend/app/search/fusion.py:48-64 | Weight one gives the dense order by best rank, weight zero the sparse one, remaining ids ascending. |
| Extract.SectionTracker.Path | backend/app/ingestion/extractors/base.py:95-96 | The open headings' texts joined by ` > `, or nothing. |
| EventStream.Stream.EndReplay | backend/app/api/routes/documents.py:90 | The end of the replay loop is the protocol's step into live streaming. |
| Entities.EntityScorer.constructor | backend/app/graph/entities.py:119-126 | Fitting computes log(1 + N/df) for every entity of the corpus. |
| Entities.EntityScorer.ScorePair | backend/app/graph/entities.py:131-167 | The overlap of two documents of the corpus; an unknown one has no entities. |
| Entities.IdfUnique | backend/app/graph/entities.py:119-126 | The corpus determines the weights. |

## Left out

- FaissStore.FaissVectorStore.Upsert: an id already in the index is overwritten in the model, where FAISS would hold both vectors; no agreeing state ever upserts such an id (`Pipeline.AllocatedIdsAreFresh`), and in the overlap that does (`IdReuse`) both vectors go together.
- FaissStore.FaissVectorStore.Query: the exact inner-product search is taken as given, with ties in no set order; FAISS's own index structures are not modelled.
- Sql.Database.ListMapped: the order of the rows is not modelled, nothing modelled depends on it.
- Service.Server.Upload: the stages before the row exists (validation, temporary file, duplicate check) and a failure between row and queue are not modelled.
- Service.Server.Delete: its contract is for a delete between jobs; one issued while a job is running is the subject of `OverlapProof` and `IdReuse`, and does not always end in agreement.
- OverlapProof.OvertakenRunIsConsistentExactly: one SQL statement, one store operation under its lock and one BM25 update are single steps of the interleaving; one delete runs at a time, and no crash cuts it or the run.
- IdReuse.WovenIsConsistentExactly: the same.
- Service.Server.CleanUp: cleanup steps that themselves raise.
- Runs.EveryHistoryAgrees: the startups in a history complete; one that is cut is the subject of `ResetLoop.SecondStartupExactly`.
- Pipeline.BatchIsGood: row ids are given as fresh and distinct, standing for random UUIDs; they are naturals, and their order is that of fixed-length hexadecimal strings.
- GraphRecompute.LatestWins: one process lifetime only; whether a graph found at startup is current is `is_stale`'s question, and matching analysis rows do not answer it after a crash in a delete-triggered recompute. Shutdown's cancellation of recomputes is not modelled. New vectors are taken to get ids no finished document uses, which is `Pipeline.AllocatedIdsAreFresh`; a delete may interleave with the document's own job here.
- Semantic.OverlapScoreUnique: rounding of reported similarities and scores, and all float rounding, is left out; arithmetic is over the reals. A negative `top_k_pairs` is not modelled.
- Entities.Score: the rounding to four places and the logarithm are parameters, the latter positive above one.
- EventStream.NothingMissedWithoutOverflow: the `queued` event of an upload is logged and never published; the model starts with it in the log. One subscriber is followed; several do not interact.
- LlmServices.Services.Explain: evidence building and cache keys are one opaque key; what the model would reply is a parameter.
- Citations.ParseCitations: ASCII digits and one whitespace predicate; numbers are unbounded, so the client's `Number` on very long digit strings is not modelled.
- The `limit=10_000` caps on document lists, page and chunk statistics (`set_stats`) and the event rows written during ingestion.
- The language and embedding models, spaCy, the topic model, Jensen-Shannon similarity, the BM25 formula, the model's token counter and content hashing: abstract functions.
- `search_service`, `build_qa_messages`, the template explainer, configuration, validators, routes other than the event stream, logging, file extraction and the rest of the frontend: I/O, wording, or easy facts about one body.
- `IngestionQueue.start` and `stop`, database sessions, migrations and locks: each modelled write is one transaction, and the single worker and the recompute lock are taken as serializing.
