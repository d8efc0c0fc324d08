# Verification of the knowledge platform's core

Dafny models of the platform's stateful core, with proofs of what its protocols keep over whole runs. `dafny verify
dfyconfig.toml` checks everything.

**Document ingestion** (`Ingestion*.dfy`, `IndexLemmas.dfy`, `ConcreteRuns.dfy`, `KnowledgeSearch.dfy`). Documents,
versions, jobs, sections, chunks and index points form one transition system. A step is one database commit or one call to
the vector store, so a request or a crash may fall between any two steps of a stage. The session neither flushes
automatically nor expires rows on commit; the worker therefore decides on the copy it loaded at the start of a job, and an
attribute whose value has not changed is not written. Jobs are kept in creation order and points in the insertion order of the
store's dictionary. The worker, repository, vector store and ingestion service are classes whose ghost trace is a run of
that system; every stage method equals a function of the old store, and `IngestionOutcomes.dfy` spells out, column by column,
what each of those functions leaves behind for every fault.

Some claims in the documentation are false of the code and are answered here with their exact conditions.

- Index agreement: a delayed REINDEX can empty the index of a newer INDEXED version (`AgreementCanBreak`). A run is *guarded*
  when a REINDEX wipes only while the document's current version is its own, is not INDEXED, or is being reindexed itself; the
  guard is exact (`ReindexWipeIff`).
- No lost work: a request that falls between the read and the first commit of a DELETE job can be lost, an upload of content
  that is current and INDEXED (`UploadLostIff`) as well as a second deletion (`DeletionLostIff`, `DeletionCanBeLost`). A run is
  *careful* when that commit overlooks neither; the guard is exact (`DeleteCommitIff`), and it holds whenever requests avoid
  those two places (`PlacedIsCareful`). Requests may fall anywhere else in any job.
- Attempts: recovery can exceed the configured attempts (`RecoveryBoundedIff`), and two retries can never succeed because the
  status table lacks the transition (`CrashIsFatalIff`, `RetryIsFatalIff`).

**Streaming filter** (`ReasoningFilter.dfy`). The incremental tag stripper against a one-pass scan.

**Chunkers** (`PythonText.dfy`, `DocumentChunks.dfy`, `WordWindows.dfy`, `Structured*.dfy`, `SheetRows.dfy`). Python's `split`,
`splitlines`, `strip` and `join` are defined on text, so conservation is stated about words and lines of the real text.

**Connectors** (`ToolLeases.dfy`, `Connector*.dfy`). Timed leases with their histories, and registration tokens, derived status
and the event log. Clocks are in microseconds and do not run backwards; a call is one transaction with one clock reading, except
a revocation, which reads without a lock and is two steps (`RevocationRace.dfy`).

**Smaller cores.** The de-duplicating migration (`DocumentMigration.dfy`), the tenant registry (`TenantRegistry.dfy`), account
linking (`OidcLinking.dfy`), prompt and history budgets (`PromptBudget.dfy`), the limiter (`RateLimiter.dfy`).

Clocks, backoff, random tokens and ids, embedding vectors, parsed sections and provider faults are parameters. Hashes and point
ids are injective. `str.lower`, the database's form of an address, the similarity of texts and the similarity score are function
parameters.

## Model

| member | source | states |
|---|---|---|
| IngestionSafety.IndexAgreement | backend/app/services/ingestion_worker.py:307-484 | In every state that a guarded run reaches from the empty deployment, requests, crashes, failures and recoveries included, a document whose current version is INDEXED has exactly the points of that version's chunk rows, in order, or none at all while a REINDEX of that version is under way. |
| IngestionSafety.StepInv | backend/app/services/ingestion_worker.py:58-112 | Every commit, vector-store call, failure, crash, recovery and request keeps the strengthened invariant: foreign keys, one active job per version and stage, distinct point ids tied to existing rows, an INDEXED version without an active EMBED job and with chunks, agreement, and what the running job relies on. |
| IngestionSafety.RunInv | backend/app/services/ingestion_worker.py:58-112 | The invariant holds after every guarded run. |
| IngestionSafety.ReindexWipeIff | backend/app/services/ingestion_worker.py:407-421 | The guard is exact: the wipe of a REINDEX keeps agreement if and only if the guard of the run holds, that is, the document's current version is its own, is not INDEXED, or is being reindexed itself. |
| IngestionSafety.EnqueueKeeps | backend/app/repositories/document_repository.py:193-236 | Queueing never makes a second active job for a version and stage. |
| IngestionSafety.HandOver | backend/app/services/ingestion_worker.py:122-227 | Succeeding and queueing the next stage in one commit keeps the invariant. |
| IngestionSafety.BeginParseInv | backend/app/services/ingestion_worker.py:128-150 | A parse job keeps the invariant, whether it resumes from chunks or sections or starts parsing. |
| IngestionSafety.FinishChunkInv | backend/app/services/ingestion_worker.py:229-305 | Storing new chunk rows and handing over to EMBED keeps the invariant. |
| IngestionSafety.BeginEmbedInv | backend/app/services/ingestion_worker.py:307-326 | Dropping an inactive version's points, refusing, or entering EMBEDDING keeps the invariant. |
| IngestionSafety.UpsertInv | backend/app/services/ingestion_worker.py:383-384 | After the document's wipe the upsert appends the version's points under fresh ids. |
| IngestionSafety.PublishOutcome | backend/app/services/ingestion_worker.py:351-384 | After wipe and upsert the document's points are its rows', in order, each with its own vector, and no other document's points change. |
| IngestionSafety.FinishEmbedInv | backend/app/services/ingestion_worker.py:387-396 | Marking INDEXED together with the end of the job establishes agreement for the version. |
| IngestionSafety.FinishDeleteInv | backend/app/services/ingestion_worker.py:475-480 | The last commit of a deletion keeps the invariant. |
| IngestionSafety.FailInv | backend/app/services/ingestion_worker.py:486-542 | However a job fails, its version is left FAILED or CHUNKED and the invariant holds. |
| IngestionSafety.RecoverInv | backend/app/repositories/document_repository.py:295-339 | Both recovery loops keep the invariant. |
| IngestionSafety.UploadInv | backend/app/services/document_ingestion_service.py:272-345 | An upload of new content keeps the invariant, whatever the worker is doing. |
| IngestionSafety.RepeatInv | backend/app/services/document_ingestion_service.py:237-271 | An upload of known content, with or without a REINDEX, keeps the invariant. |
| IngestionSafety.InFlightKept | backend/app/services/ingestion_worker.py:307-484 | What a running job relies on survives any request that arrives in the middle of it. |
| IndexLemmas.RemoveDocumentEffect | backend/app/services/vector_store.py:99-105 | Deleting by document empties that document and keeps every other document's points in order. |
| IndexLemmas.RemoveVersionEffect | backend/app/services/vector_store.py:66-72 | Deleting by version removes exactly that version's points. |
| IndexLemmas.UpsertFresh | backend/app/services/vector_store.py:60-61 | Points under ids the store does not hold go to the end in their own order. |
| IndexLemmas.PutReplaces | backend/app/services/vector_store.py:60-61 | A point under an id the store holds takes the place of the one that had it. |
| IndexLemmas.DeletionSplits | backend/app/services/vector_store.py:66-105 | A deletion by document or version drops a point exactly if tenant and document or version match, wherever it stands. |
| ConcreteRuns.AgreementCanBreak | backend/app/services/ingestion_worker.py:407-421 | A complete run from the empty deployment after which the current version is INDEXED, has a chunk row and no REINDEX of its own, and the index is empty: a delayed REINDEX of an older version has wiped it. |
| ConcreteRuns.DeletionCanBeLost | backend/app/services/ingestion_worker.py:451-453 | A complete run from the empty deployment that ends idle with the document deleted, its point in the index, its version INDEXED and no DELETE job: the second deletion arrived while a superseded DELETE job was about to end, and took it for its own. |
| IngestionGaps.LateReindexEmptiesTheIndex | backend/app/services/ingestion_worker.py:413 | The same wipe from a small state that satisfies the whole invariant. |
| IngestionGaps.CrashIsFatalIff | backend/app/services/ingestion_status_service.py:11-51 | After a crash between two commits the next attempt fails for good if and only if the crash came after the INDEXING commit, because INDEXING to EMBEDDING is not in the table. |
| IngestionGaps.RetryIsFatalIff | backend/app/services/ingestion_status_service.py:11-51 | After a failure that is to be retried, the next attempt is refused, and the job then ends FAILED_PERMANENT, if and only if the job is a CHUNK job, because FAILED to CHUNKING is not in the table. |
| IngestionGaps.UploadLostIff | backend/app/services/ingestion_worker.py:447-484 | An upload that lands right after a DELETE job has read the tombstone leaves its version without index, job or error if and only if it found it current and INDEXED with no job queued. |
| IngestionGaps.RevivedJobs | backend/app/services/ingestion_worker.py:447-484 | Which jobs such an upload leaves behind. |
| IngestionGaps.DeletionLostIff | backend/app/repositories/document_repository.py:209-212 | A deletion asked for while a DELETE job that read its document live is about to end queues nothing, and is lost if and only if the document has points and no other DELETE job. |
| IngestionLiveness.NoLostWork | backend/app/services/document_ingestion_service.py:237-398 | In every careful run, with requests, crashes and recoveries anywhere between the worker's commits: an active document's current version is INDEXED, has an active job, or is FAILED or CHUNKED with an error; a deleted document has no points, or has an active or permanently failed DELETE job. A run is careful if the first commit of a DELETE job overlooks nothing asked for since its read. |
| IngestionLiveness.DeleteCommitIff | backend/app/services/ingestion_worker.py:451-474 | That guard is exact: the first commit of a DELETE job loses nothing if and only if it holds, that is, a document read as deleted is so still or has work queued, and one read as live is not deleted now, or has no points or another DELETE job. |
| IngestionLiveness.PlacedIsCareful | backend/app/services/ingestion_worker.py:451-474 | A run is careful if requests avoid two places: a repeat of current INDEXED content without queued work after a DELETE job saw the tombstone, and a deletion that finds only a DELETE job which saw the document live. |
| IngestionLiveness.NoLostWorkPlaced | backend/app/services/document_ingestion_service.py:237-398 | So nothing is lost when requests fall anywhere else. |
| IngestionLiveness.SteadyKept | backend/app/services/ingestion_worker.py:113-484 | A running job goes on correctly whatever is requested in the middle of it, on a view that may be stale. |
| IngestionLiveness.RequestSteady | backend/app/services/document_ingestion_service.py:237-398 | Every request, wherever it falls, keeps the whole invariant. |
| IngestionLiveness.StepLive | backend/app/services/ingestion_worker.py:58-112 | Every single event of a careful run keeps that, together with what the running job still has to do; requests need no idle worker. |
| IngestionLiveness.RunLive | backend/app/services/ingestion_worker.py:58-112 | The same over whole runs. |
| IngestionLiveness.StageLive | backend/app/services/ingestion_worker.py:113-484 | Every step of every stage keeps it, decided on a view that requests may have overtaken. |
| IngestionLiveness.FailLive | backend/app/services/ingestion_worker.py:486-542 | A failure records its error on the version, or leaves the DELETE job as evidence. |
| IngestionLiveness.RecoverLive | backend/app/repositories/document_repository.py:295-339 | Recovery loses no job. |
| IngestionLiveness.RequestLive | backend/app/services/document_ingestion_service.py:237-398 | A request queues the work it owes for the document it touches. |
| IngestionDrain.PipelineDrains | backend/app/services/ingestion_worker.py:58-112 | Without new requests the worker's claims, steps and failures number at most the drop of a budget over stage rank and attempts left, plus seven for every crash, however often jobs are recovered. |
| IngestionDrain.StepDrains | backend/app/services/ingestion_worker.py:58-112 | Every step of the worker uses up budget, attempts that a recovery granted included. |
| IngestionDrain.RecoveryDrains | backend/app/repositories/document_repository.py:295-339 | A recovery hands out at most the attempts that crashes cut short. |
| IngestionDrain.AttemptsBounded | backend/app/services/ingestion_worker.py:506-507 | Without recovery no job is attempted more than max_attempts times, whatever is requested or crashes. |
| IngestionDrain.RecoveryBoundedIff | backend/app/repositories/document_repository.py:307-313 | Recovery keeps jobs within their attempts if and only if every job it recovers has one left. |
| IngestionDrain.RecoveryExceedsTheLimit | backend/app/repositories/document_repository.py:307-313 | A concrete run in which a job with one attempt is attempted twice. |
| IngestionWorker.IngestionWorker.RunOnce | backend/app/services/ingestion_worker.py:58-111 | A turn recovers stale jobs, claims the oldest due job, runs its stage and records a failure; it is a run of the transition system with steps of that job only, and its result is the stage's function with the failure handler applied. |
| IngestionWorker.IngestionWorker.Turn | backend/app/services/ingestion_worker.py:58-111 | The turn of a claimed job leaves the worker idle and the store as computed. |
| IngestionWorker.IngestionWorker.Parse | backend/app/services/ingestion_worker.py:128-227 | The parse stage, with both short cuts, equals its function and ends idle or at the phase the exception struck in. |
| IngestionWorker.IngestionWorker.Chunk | backend/app/services/ingestion_worker.py:229-305 | The chunk stage equals its function. |
| IngestionWorker.IngestionWorker.EmbedAndIndex | backend/app/services/ingestion_worker.py:307-405 | The embedding stage, from dropping an inactive version to the INDEXED commit, equals its function for every fault of the provider and the store; without a fault the document of an active current version has one point for each chunk row, in order, with the row's id and text, the job's tenant, and the vector the provider gave for that row. |
| IngestionWorker.IngestionWorker.Publish | backend/app/services/ingestion_worker.py:382-396 | The wipe, the upsert and the last commit, with a store fault between any two; without one the document's points are its rows', each with its own vector, and no other document's points change. |
| IngestionWorker.IngestionWorker.Reindex | backend/app/services/ingestion_worker.py:407-445 | Wipe first, then one commit that resets the version and queues PARSE. |
| IngestionWorker.IngestionWorker.Delete | backend/app/services/ingestion_worker.py:447-484 | A superseded deletion succeeds at once; otherwise mark, wipe, and one last commit. |
| IngestionWorker.IngestionWorker.Fail | backend/app/services/ingestion_worker.py:486-542 | The failure handler: job state by permanence and attempts, version status by kind of fault, nothing for deletions. |
| IngestionWorker.DocumentRepository.EnqueueJob | backend/app/repositories/document_repository.py:193-236 | An active job of the same stage is returned instead of a second one. |
| IngestionWorker.DocumentRepository.ClaimJob | backend/app/repositories/document_repository.py:364-392 | The oldest job whose state and retry time allow it, or none when no job may be claimed. |
| IngestionWorker.DocumentRepository.RecoverJobs | backend/app/repositories/document_repository.py:295-339 | Exactly the stale (or all) running jobs become retryable, and the count is theirs. |
| IngestionWorker.InMemoryVectorStore.Upsert | backend/app/services/vector_store.py:60-61 | The dictionary update, key by key, in place. |
| IngestionWorker.InMemoryVectorStore.DeleteDocument | backend/app/services/vector_store.py:99-105 | Keeps the points of other tenants and documents. |
| IngestionWorker.InMemoryVectorStore.DeleteVersion | backend/app/services/vector_store.py:66-72 | Keeps the points of other tenants and versions. |
| IngestionService.DocumentIngestionService.Accept | backend/app/services/document_ingestion_service.py:110-345 | A delivery seen before is answered from its record and changes nothing; a key reused for something else is refused. A fresh upsert is accepted if and only if it is dated, streamed, of a matching type, stored without failure in the declared size within the limit, and the stored hash is the declared one; every refusal code has its own condition, and a refusal changes nothing. Otherwise the rows, the job and the acknowledgement are as stated, column by column, and the change is exactly one upload, repeat or delete. |
| IngestionService.DocumentIngestionService.Delete | backend/app/services/document_ingestion_service.py:348-398 | A deletion is accepted if and only if the document is known, and is refused without change otherwise; a known one is tombstoned once with a DELETE job. |
| IngestionOutcomes.TransitionTable | backend/app/services/ingestion_status_service.py:11-51 | The allowed status changes, one by one. |
| IngestionOutcomes.ParseFromChunks | backend/app/services/ingestion_worker.py:128-150 | A parse job of a version with chunks leaves it CHUNKED without error, with the EMBED job handed over and nothing else changed. |
| IngestionOutcomes.ParseFromSections | backend/app/services/ingestion_worker.py:128-150 | One of a version with sections leaves it PARSED, with the CHUNK job handed over. |
| IngestionOutcomes.ParseAnew | backend/app/services/ingestion_worker.py:150-227 | Otherwise the parsed sections are stored and the CHUNK job handed over, if some section has text. |
| IngestionOutcomes.ParseFaultTurn | backend/app/services/ingestion_worker.py:150-227 | A forbidden status, a failing parser or a document without text fails the job, and which statuses were committed by then. |
| IngestionOutcomes.ChunkTurn | backend/app/services/ingestion_worker.py:229-305 | The chunk rows are the chunker's texts, in order under new ids, and the EMBED job is handed over. |
| IngestionOutcomes.ChunkFaultTurn | backend/app/services/ingestion_worker.py:229-305 | A forbidden status or an empty answer fails the job. |
| IngestionOutcomes.EmbedTurn | backend/app/services/ingestion_worker.py:307-405 | A turn without fault leaves the current version INDEXED without error, the job done, and one point per row with the row's own vector; everything else is as before. |
| IngestionOutcomes.EmbedRefusedTurn | backend/app/services/ingestion_worker.py:307-350 | No rows, a forbidden status, a provider's fault or a wrong number of vectors fails the job before the index is touched. |
| IngestionOutcomes.EmbedStoreFaultTurn | backend/app/services/ingestion_worker.py:382-386 | A fault of the vector store leaves the index as it was, or wiped of the document when it strikes between wipe and upsert. |
| IngestionOutcomes.EmbedInactiveTurn | backend/app/services/ingestion_worker.py:307-321 | An inactive version loses exactly its own points and the job succeeds. |
| IngestionOutcomes.ReindexTurn | backend/app/services/ingestion_worker.py:407-445 | The document loses its points, the version its chunks, sections and error, and the PARSE job is handed over. |
| IngestionOutcomes.DeleteTurn | backend/app/services/ingestion_worker.py:447-484 | A superseded deletion only ends; otherwise all versions of the document are DELETED_FROM_INDEX, its points and chunk rows gone, and nobody else's. |
| IngestionOutcomes.FailOutcome | backend/app/services/ingestion_worker.py:486-542 | Which faults are final, what is retried when, and the status and error code each fault leaves. |
| IngestionOutcomes.ClaimOutcome | backend/app/repositories/document_repository.py:364-392 | Which jobs may be claimed, and what a claim writes. |
| IngestionOutcomes.RecoverOutcome | backend/app/repositories/document_repository.py:295-339 | Which jobs are recovered, and what a recovery writes. |
| IngestionOutcomes.ChangedIs | backend/app/repositories/document_repository.py:295-339 | The reported count is the number of jobs recovered. |
| IngestionOutcomes.HandsOver | backend/app/repositories/document_repository.py:193-236 | A hand-over ends the job and leaves one waiting job of the next stage: the active one there is, or a new one. |
| IngestionOutcomes.UploadOutcome | backend/app/services/document_ingestion_service.py:272-345 | The rows and the job that new content leaves. |
| IngestionOutcomes.RepeatOutcome | backend/app/services/document_ingestion_service.py:237-271 | The rows and the job that known content leaves. |
| IngestionOutcomes.DeletionOutcome | backend/app/services/document_ingestion_service.py:348-398 | The tombstone and the job that a deletion leaves. |
| IngestionOutcomes.AskReindexOutcome | backend/app/api/routes/tenant/documents.py:711-734 | When the administrator's reindex queues a job, and which. |
| IngestionOutcomes.AskRetryOutcome | backend/app/api/routes/tenant/documents.py:666-708 | When the administrator's retry applies, and which job it queues. |
| KnowledgeSearch.SettledSearch | backend/app/services/knowledge_service.py:102-194 | When every document of the tenant is in agreement or has no points, and every document with a searchable chunk has points, unfiltered search is the stable top-k by score over all chunks of active current INDEXED versions, each once, with the database text. |
| KnowledgeSearch.SearchAtRest | backend/app/services/knowledge_service.py:102-194 | So it is after any guarded run that has come to rest. |
| KnowledgeSearch.SearchIsSound | backend/app/services/knowledge_service.py:118-189 | Whatever the index holds, a result is a chunk row of the tenant's own active document's current INDEXED version, with the row's text and a stored point's score. |
| KnowledgeSearch.Search | backend/app/services/knowledge_service.py:102-194 | The loop over hits keeps exactly the survivors of the database checks, in order. |
| KnowledgeSearch.VectorSearch | backend/app/services/vector_store.py:107-125 | The store's answer is the filtered points, ranked and cut. |
| KnowledgeSearch.CandidatesAre | backend/app/services/vector_store.py:107-122 | A point is ranked if and only if it is an active one of the tenant, and of the document if one is asked for. |
| KnowledgeSearch.SurvivorsAre | backend/app/services/knowledge_service.py:118-189 | A hit is shown if and only if the chunk is still there, in the current INDEXED version of an active document of the tenant, with the text of its row, and in the order of the hits. |
| KnowledgeSearch.RankedIsStableSort | backend/app/services/vector_store.py:123-125 | The ranking is a stable descending sort. |
| KnowledgeSearch.AtRestIsSettled | backend/app/services/knowledge_service.py:102-194 | Agreement and rest give what the search needs. |
| ReasoningFilter.StreamingEqualsBatch | backend/app/services/llm_provider.py:126-164 | For every way of cutting a text into chunks, the filter's output with the final flush is the one-pass scan that drops each open tag through the next close tag, and an unclosed tail. |
| ReasoningFilter.TagIff | backend/app/services/llm_provider.py:127-128 | A text begins with a tag of a given length if and only if its front is "<" or "</", one of the four words in any mixture of cases or with one of the four letters that fold to ASCII, and ">". |
| ReasoningFilter.StreamDropsReasoning | backend/app/services/llm_provider.py:126-164 | For texts without tags of their own, an open tag, and a close tag: cut in any way, the stream gives what stands before and after the two and drops what stands between, and what follows an open tag that is never closed. |
| ReasoningFilter.StreamGoesOn | backend/app/services/llm_provider.py:134-164 | After a close tag the stream goes on as from the beginning. |
| ReasoningFilter.FeedIsPrompt | backend/app/services/llm_provider.py:146-163 | Between feeds no more is held back than the last '<' with what follows it, or 32 characters inside a block. |
| ReasoningFilter.StreamIsScan | backend/app/services/llm_provider.py:134-164 | The same from any memory of the filter. |
| ReasoningFilter.TrimKeepsMeaning | backend/app/services/llm_provider.py:146-163 | Keeping from the last '<' outside and the last 32 characters inside is enough. |
| ReasoningFilter.DrainKeepsMeaning | backend/app/services/llm_provider.py:137-145 | Removing the tags that are there does not change what is still to be scanned. |
| ReasoningFilter.FeedKeepsMeaning | backend/app/services/llm_provider.py:134-164 | A feed in the middle of a stream leaves the rest of the scan unchanged. |
| ReasoningFilter.FinalFlush | backend/app/services/llm_provider.py:147-154 | The final feed emits the scan of what is left and empties the buffer. |
| ReasoningFilter.UntouchedIff | backend/app/services/llm_provider.py:126-164 | A text is left alone if and only if no stretch of it is an opening tag. |
| ReasoningFilter.StreamingReasoningFilter.Feed | backend/app/services/llm_provider.py:134-164 | The method's pieces, none of them empty, joined are the function's output, and buffer and flag its memory. |
| PythonText.SplitAtSpace | backend/app/services/document_chunker.py:42 | Splitting into words around a white-space character splits the two sides. |
| PythonText.SplitLinesJoin | backend/app/services/document_chunker.py:159 | Splitting joined lines gives the lines back unless the last is empty. |
| PythonText.SplitByLines | backend/app/services/document_chunker.py:74 | Splitting into lines keeps the words. |
| PythonText.SplitJoin | backend/app/services/document_chunker.py:131 | Joining with white space keeps the words of the parts. |
| PythonText.StripIs | backend/app/services/document_chunker.py:131 | Stripping takes away white space on both sides, and all of it. |
| PythonText.SplitLinesAt | backend/app/services/document_chunker.py:74 | A line ends at its first break, and "\r\n" is one break. |
| WordWindows.ChunkSection | backend/app/services/document_chunker.py:42-64 | The window loop terminates for every target of at least 1 and every overlap, and gives exactly the windows of the closed form, in the exact number. |
| WordWindows.ChunkWordWindows | backend/app/services/document_chunker.py:35-65 | The chunks of all sections, numbered through. |
| WordWindows.ChunkReads | backend/app/services/document_chunker.py:42-64 | Chunk k of a section holds the words from k * (T - min(V, T - 1)) on, T of them or as many as are left, with spaces between; the last one is the first to reach the end. |
| WordWindows.WindowsRoundTrip | backend/app/services/document_chunker.py:35-65 | Dropping each later window's overlap rebuilds the word list, and every chunk has between 1 and target words. |
| WordWindows.WindowCountStep | backend/app/services/document_chunker.py:62-64 | The count 1 + ceil((n - T) / (T - min(V, T - 1))) steps with the loop. |
| WordWindows.LastWindow | backend/app/services/document_chunker.py:47-64 | Exactly the last window reaches the end, and no window lies inside the one before it. |
| StructuredText.StructuredBlocks | backend/app/services/document_chunker.py:73-114 | The nested loops give the recursive cutting of the lines. |
| StructuredText.BlocksLoseNothing | backend/app/services/document_chunker.py:73-114 | The blocks, joined, are the lines without the blank ones outside fences (by a one-pass reference scan), and no word is lost. |
| StructuredText.BlocksAreKeptLines | backend/app/services/document_chunker.py:73-114 | Line by line: nothing lost, invented or moved. |
| StructuredText.BlocksAreWellFormed | backend/app/services/document_chunker.py:82-113 | A block is a fence with its contents, one heading, or a run of non-blank lines of one kind. |
| StructuredText.BlocksAreCut | backend/app/services/document_chunker.py:73-114 | Each block stands at its place in the lines and reaches as far as it can: a fence to the line that closes it or to the end, a run to the first line that does not go on; between blocks only blank lines are left out. |
| StructuredText.HeadingIff | backend/app/services/document_chunker.py:68 | A heading is one to six hashes, white space, and something else. |
| StructuredText.ListIff | backend/app/services/document_chunker.py:69 | A list line is a bullet, or digits with a full stop or parenthesis, behind the indent, then white space and something else. |
| StructuredText.TableIff | backend/app/services/document_chunker.py:70 | A table line has a pipe behind its indent and another before its trailing white space. |
| StructuredText.FenceIff | backend/app/services/document_chunker.py:82-83 | A fence is three backticks or three tildes behind the indent. |
| StructuredPacking.PackingLosesNothing | backend/app/services/document_chunker.py:117-166 | Over all chunks every block, or line of an over-long non-fence block, appears once and in order up to copies of the heading; a chunk exceeds the target only if it is at most the heading plus one item; no chunk is empty; every chunk after the first has the heading for its first part, and its text starts with it. |
| StructuredPacking.WordsConserved | backend/app/services/document_chunker.py:117-166 | Without a heading the words of the chunks, read in order, are the words of the section. |
| StructuredPacking.PackingIsGreedy | backend/app/services/document_chunker.py:148-164 | Headed or not, the blocks and the lines of over-long blocks are cut into chunks as the layout says: within a chunk every item but the first fitted beside the heading, and a chunk ends only where the next item did not fit or an over-long block begins, with the heading alone in between when that block's first line does not fit beside it. |
| StructuredPacking.LayoutIsUnique | backend/app/services/document_chunker.py:148-164 | There is one such cut only: the items determine it. |
| StructuredPacking.SectionHeading | backend/app/services/document_chunker.py:123 | When a section has a heading, and that it is the first block. |
| StructuredPacking.ChunkReads | backend/app/services/document_chunker.py:127-144 | Text, number and place of every chunk of every section. |
| StructuredPacking.ChunkStructuredText | backend/app/services/document_chunker.py:117-166 | The chunks are the packed buffers of each section's blocks, numbered through. |
| StructuredPacking.Packer.Emit | backend/app/services/document_chunker.py:127-146 | The nested helper: emits the open chunk's parts, joined by a blank line and stripped, under the next number, and reopens the chunk with the heading, if there is one, and its words. |
| StructuredPacking.Packer.PackBlock | backend/app/services/document_chunker.py:148-164 | One turn of the packing loop. |
| StructuredPacking.BlockIsProper | backend/app/services/document_chunker.py:150-160 | A joined block is no blank text, and splitting an over-long one gives its lines back. |
| SheetRows.ChunkRows | backend/app/services/document_chunker.py:169-199 | The chunks of the greedy groups of every sheet, sheets in code-point order; the call fails if and only if some sheet has a row without text between rows that are each over the target (or at an end of the sheet). |
| SheetRows.RowsFailIff | backend/app/services/document_chunker.py:205-206 | The same condition for the groups: an empty body is a lone row without text. |
| SheetRows.GroupsAreGreedy | backend/app/services/document_chunker.py:185-198 | The groups are the rows cut up in order; one over the target is a single row; one ends only where the next row did not fit. |
| SheetRows.RowsConserved | backend/app/services/document_chunker.py:172-198 | Every sheet's rows, and no others, are in that sheet's groups, in order. |
| SheetRows.RowChunkReads | backend/app/services/document_chunker.py:202-218 | A chunk's text is its rows, with the header line before them unless they begin with it; a one-line header is the first line of every chunk; the sheet's name, the row range from the first row to the last, the title and the header go with it. |
| SheetRows.SortedNames | backend/app/services/document_chunker.py:175 | The sheet names, ascending and each once. |
| SheetRows.LessIff | backend/app/services/document_chunker.py:175 | The order of the names is that of the first differing character, a prefix first. |
| SheetRows.RowsOfAt | backend/app/services/document_chunker.py:172-174 | A sheet's rows are the sections on it, in order; sections without a sheet are together. |
| SheetRows.GroupReads | backend/app/services/document_chunker.py:176-184 | A group's header is what the sheet's first row declares, or that row itself. |
| SheetRows.SheetsAscend | backend/app/services/document_chunker.py:175 | The groups come in the order of the sheet names. |
| SheetRows.RowWordsAre | backend/app/services/document_chunker.py:188-196 | The count that closes a group is the number of words of its text. |
| ToolLeases.LeasesAreDisjoint | backend/app/services/operational_tool_service.py:113-154 | In every run with a clock that does not run backwards a request's leases do not overlap and there are at most two. |
| ToolLeases.AttemptLimitNeverBinds | backend/app/services/operational_tool_service.py:122 | The limit of three attempts never decides whether a request may be claimed. |
| ToolLeases.AnsweredOnce | backend/app/services/operational_tool_service.py:156-203 | A request is answered at most once; the answer carries the latest lease's token, which is no other lease's, and arrived inside that lease and the request's life. |
| ToolLeases.SubmitAcceptedIff | backend/app/services/operational_tool_service.py:172-190 | A submission is taken if and only if the history allows it: own request, unanswered, alive, the latest lease's token, still running, result not too large. |
| ToolLeases.TerminalIsAbsorbing | backend/app/services/operational_tool_service.py:113-247 | A completed, failed or expired request keeps its status, answer and leases for ever. |
| ToolLeases.StepInv | backend/app/services/operational_tool_service.py:47-247 | Every call keeps the table and its history consistent. |
| ToolLeases.RunInv | backend/app/services/operational_tool_service.py:47-247 | So does every run. |
| ToolLeases.OperationalToolService.Claim | backend/app/services/operational_tool_service.py:113-154 | The oldest request that is the connector's own, alive, tried fewer than three times and free is leased for 15 seconds; if there is none, old requests are expired; nothing else changes. |
| ToolLeases.OperationalToolService.Submit | backend/app/services/operational_tool_service.py:156-203 | The verdict by owner, lease and size of at most 100000; only an accepted submission changes the row, and then to the answer, without token and lease. |
| ToolLeases.OperationalToolService.Result | backend/app/services/operational_tool_service.py:205-222 | Reading a request past its life marks it expired, unless it was answered. |
| ToolLeases.OperationalToolService.ExpireOld | backend/app/services/operational_tool_service.py:238-247 | Exactly the open requests past their life expire and lose their lease. |
| ToolLeases.OperationalToolService.Create | backend/app/services/operational_tool_service.py:99-111 | A new pending request with 30 seconds to live. |
| ConnectorSafety.LogExplainsStatus | backend/app/services/connector_service.py:269-843 | In every run, replaying STATUS_CHANGED and RETIRED entries from DISCONNECTED gives each connector's stored status; each change starts where the last ended and none follows retirement. |
| ConnectorSafety.TokensRegisterOnce | backend/app/services/connector_service.py:269-404 | REGISTERED entries, connectors and used tokens are in bijection, tenants agree, and active appliances are distinct and within the tenant's limit, also where other calls come between the reading and the writing of a revocation. |
| ConnectorSafety.ExpiredAtMostOnce | backend/app/services/connector_service.py:186-317 | A token has at most one EXPIRED entry, and a token with one is not used. |
| ConnectorSafety.RetirementIsForEver | backend/app/services/connector_service.py:803-822 | The log only grows, used tokens stay used, and a retired connector stays retired whatever arrives. |
| ConnectorSafety.StepInv | backend/app/services/connector_service.py:158-843 | Every call keeps the invariant of rows and log. |
| ConnectorSafety.RunInv | backend/app/services/connector_service.py:158-843 | So does every run. |
| ConnectorSafety.EnrolInv | backend/app/services/connector_service.py:370-405 | An accepted registration keeps it. |
| ConnectorSafety.PutInv | backend/app/services/connector_status_service.py:38-55 | Storing a recalculated row with its STATUS_CHANGED entry keeps it. |
| ConnectorSafety.SilentRecalculation | backend/app/services/connector_service.py:669-685 | A recalculation that keeps the status changes nothing at all, so leaving out the commit loses nothing. |
| ConnectorSafety.HeartbeatRevives | backend/app/services/connector_service.py:562-588 | An accepted heartbeat makes an active connector connected, or degraded by its sources. |
| RevocationRace.UsedAndRevokedIff | backend/app/services/connector_service.py:216-238 | In every run a token ends up both used and revoked if and only if a session read it fresh, a registration then took it, and the same session wrote its revocation afterwards. |
| RevocationRace.AtomicRevocation | backend/app/services/connector_service.py:216-238 | So no token is both used and revoked where every revocation writes right after it has read. |
| RevocationRace.FourCalls | backend/app/services/connector_service.py:216-238 | The race in four calls: generate, read, register, write. |
| ConnectorLog.DeriveDecays | backend/app/services/connector_status_service.py:11-36 | While nothing is heard the derived status only decays, and disconnection is final. |
| ConnectorLog.DeriveIff | backend/app/services/connector_status_service.py:11-36 | Each status has its condition: retirement, three failures, silence of three or one and a half intervals, unhealthy sources. |
| ConnectorLog.RecalculatedIs | backend/app/services/connector_status_service.py:38-55 | The counter of missed heartbeats that goes with each status. |
| ConnectorLog.MaintenanceIs | backend/app/services/connector_service.py:824-843 | Every connector is refreshed and then every expiry recorded, one entry each. |
| ConnectorService.Service.Register | backend/app/services/connector_service.py:269-449 | Each answer has its condition on the token, the tenant, the appliance and the limit; a refusal is logged and changes nothing but a newly found expiry, and an acceptance adds the connector, uses the token and logs both. |
| ConnectorService.AnswerSays | backend/app/services/connector_service.py:269-368 | Which answer a registration gets, for every state of token, tenant and connectors. |
| ConnectorService.Service.RecordHeartbeat | backend/app/services/connector_service.py:526-653 | A foreign appliance is logged and refused; otherwise the row is refreshed, and heartbeat, changed sources and changed status are logged in that order. |
| ConnectorService.Service.RecordAuthFailure | backend/app/services/connector_service.py:451-470 | The count, the entry, and the status change it causes. |
| ConnectorService.Service.RecordExpiries | backend/app/services/connector_service.py:195-213 | Every lapsed token that was looked at has its expiry recorded, on its row and by exactly one entry, and nothing else changes. |
| ConnectorService.Service.RecalculateMany | backend/app/services/connector_service.py:669-685 | Every connector that was looked at has its status refreshed, with exactly one entry for a change, and nothing else changes. |
| ConnectorService.Service.GetRegistrationToken | backend/app/services/connector_service.py:219-221 | The row as it is now, without a lock. |
| ConnectorService.Service.RevokeSeen | backend/app/services/connector_service.py:222-238 | The rest of a revocation, decided on the copy and written to the row. |
| ConnectorService.Service.RevokeRegistrationToken | backend/app/services/connector_service.py:216-238 | A revocation that nothing comes between: a used token is refused, a revoked one left alone. |
| ConnectorService.Service.Retire | backend/app/services/connector_service.py:803-822 | The first retirement is logged, later ones change nothing. |
| ConnectorService.Service.Maintenance | backend/app/services/connector_service.py:824-843 | All connectors are recalculated, then all expiries recorded. |
| ConnectorService.ConnectorStatusService.Recalculate | backend/app/services/connector_status_service.py:38-55 | The new row with the status its silence, failures and sources call for, and the counter that goes with it. |
| DocumentMigration.Deduplicate | backend/alembic/versions/f73b1c8d4e20_tenant_owned_document_identity.py:28-207 | One document per tenant and key remains; no job, chunk, section, audit row or idempotency record points at a removed row; (document, hash) stays unique; each key's set of content hashes is conserved; surviving versions keep exactly their parts and jobs, and every audit event its key and content; an idempotency record stays, unchanged, if and only if its document does, if it names one, and so does a job without a version; each key is settled, INDEXED content first, and ties between copies go to the first of the query. |
| DocumentMigration.MergeGroup | backend/alembic/versions/f73b1c8d4e20_tenant_owned_document_identity.py:50-207 | The same for one group: the preferred copy survives with the latest copy's data and the foremost version. |
| DocumentMigration.MergeDocument | backend/alembic/versions/f73b1c8d4e20_tenant_owned_document_identity.py:62-165 | Merging one copy removes exactly that document, its idempotency records and its jobs without a version, keeps all other content, and touches no other key. |
| DocumentMigration.MergeVersion | backend/alembic/versions/f73b1c8d4e20_tenant_owned_document_identity.py:83-150 | One version is absorbed into the canonical one of the same hash, or moved. |
| DocumentMigration.AbsorbDerived | backend/alembic/versions/f73b1c8d4e20_tenant_owned_document_identity.py:94-123 | Absorbing keeps contents, other versions' rows, and the audit trail. |
| DocumentMigration.MoveDerived | backend/alembic/versions/f73b1c8d4e20_tenant_owned_document_identity.py:124-150 | So does moving. |
| DocumentMigration.DropDerived | backend/alembic/versions/f73b1c8d4e20_tenant_owned_document_identity.py:151-165 | So does removing the emptied copy. |
| DocumentMigration.PickCurrent | backend/alembic/versions/f73b1c8d4e20_tenant_owned_document_identity.py:167-186 | A surviving version that is INDEXED if any is, and then the latest. |
| DocumentMigration.Canonical | backend/alembic/versions/f73b1c8d4e20_tenant_owned_document_identity.py:53-60 | The first copy, in the order of the query, that shows an INDEXED version if any does, and then the latest update. |
| DocumentMigration.Latest | backend/alembic/versions/f73b1c8d4e20_tenant_owned_document_identity.py:61 | The first of the copies updated last. |
| DocumentMigration.GroupRows | backend/alembic/versions/f73b1c8d4e20_tenant_owned_document_identity.py:46-48 | The rows of every key, in the order of the query. |
| TenantRegistry.RestartEquivalence | backend/app/services/tenant_registry_manager.py:29-38 | After any run of create, update, set_active and delete since a load, through databases whose slugs and host names differ by more than case, the two maps index the same definitions and every host and slug resolves exactly as after a fresh load, in whatever order the rows come. |
| TenantRegistry.RunResolves | backend/app/services/tenant_resolver.py:10-36 | After any such run a slug or a host resolves to exactly the active tenant that has it up to case, with that tenant's data, and to nothing if there is none. |
| TenantRegistry.BeforeColonIs | backend/app/services/tenant_resolver.py:11 | The name looked up is the host up to its first colon. |
| TenantRegistry.AddAgreesIff | backend/app/core/tenant_registry.py:20-28 | Adding keeps the two maps in agreement if and only if no other tenant holds the host name. |
| TenantRegistry.SameResolution | backend/app/services/tenant_resolver.py:10-36 | Two registries that hold all active tenants as they are now resolve alike: what else they hold is disabled. |
| TenantRegistry.StepInv | backend/app/services/tenant_service.py:66-225 | Every request against the service keeps the registry true to the database. |
| TenantRegistry.LoadedReflects | backend/app/services/tenant_registry_manager.py:29-38 | So does a load. |
| TenantRegistry.SurvivesIff | backend/app/services/tenant_registry_manager.py:29-38 | The exact condition on a database: whatever is switched on and off, a restart changes no answer if and only if slugs and host names differ by more than case. |
| TenantRegistry.CaseCollision | backend/app/services/tenant_service.py:70-78 | Two slugs that differ in case alone pass the service's check, and the answer then depends on a restart. |
| TenantRegistry.Registry.Add | backend/app/core/tenant_registry.py:20-28 | The old host name of the slug goes, the definition comes under both keys. |
| TenantRegistry.Registry.Remove | backend/app/core/tenant_registry.py:30-34 | Removing by host removes from both maps and keeps agreement. |
| TenantRegistry.Registry.RemoveBySlug | backend/app/core/tenant_registry.py:36-40 | Removing by slug removes from both maps and keeps agreement. |
| TenantRegistry.TenantService.Load | backend/app/services/tenant_registry_manager.py:29-38 | Clear, then add the active tenants one by one. |
| TenantRegistry.TenantService.Create | backend/app/services/tenant_service.py:66-127 | Each refusal has its condition and changes nothing; otherwise row and registry change together. |
| TenantRegistry.TenantService.Update | backend/app/services/tenant_service.py:145-176 | Only a real change of name or zone is stored and re-registered. |
| TenantRegistry.TenantService.SetActive | backend/app/services/tenant_service.py:178-200 | The status is stored and re-registered. |
| TenantRegistry.TenantService.Delete | backend/app/services/tenant_service.py:202-225 | Only a confirmed deletion of an inactive tenant removes it, from both. |
| OidcLinking.LinkIsUnique | backend/app/services/oidc_user_service.py:23-143 | A successful call returns a live user of the tenant bound to the identity's subject, and subjects and addresses stay unique; a failure changes nothing. |
| OidcLinking.LinkIsStable | backend/app/services/oidc_user_service.py:23-143 | After any other calls, a later call with the same oid and sub, whatever address and name it brings, returns the same user if and only if that user still holds the oid, or the sub while nobody holds the oid; and so it does unless another identity claimed the subject as its sub under its own oid (claim stability, section 5.7 of OpenID Connect Core 1.0). |
| OidcLinking.MovedIff | backend/app/services/oidc_user_service.py:46-92 | A call takes a subject from its holder if and only if it signs the holder in with an identity that has the subject for its sub and another oid. |
| OidcLinking.SameUserIff | backend/app/services/oidc_user_service.py:33-100 | Who a call returns, for a user who has signed in before. |
| OidcLinking.OnlySubMovesToOid | backend/app/services/oidc_user_service.py:23-143 | A user's subject, once set, changes only from the identity's sub to its oid; no other user is touched. |
| OidcLinking.ConflictIff | backend/app/services/oidc_user_service.py:119-133 | The database refuses a new user if and only if its own form of the address matches a user the program's form did not find; with one form that never happens. |
| OidcLinking.OidcUserService.Provision | backend/app/services/oidc_user_service.py:23-143 | The lookups, the legacy migration, the checks and the link give the outcome stated by who holds oid, sub or address. |
| OidcLinking.OutcomeIs | backend/app/services/oidc_user_service.py:23-143 | Column by column: who is found, who is turned away, what the link writes, and the new user's row. |
| OidcLinking.OidcUserService.Migrate | backend/app/services/oidc_user_service.py:46-92 | On whatever the table holds by then, the legacy user ends up with the oid or the call is refused without a trace. |
| OidcLinking.TenantUserRepository.UpdateSubjectIfMatches | backend/app/repositories/tenant_user_repository.py:39-55 | The compare-and-set changes the row if and only if it still carries the expected subject and the new one is free. |
| PromptBudget.BudgetHolds | backend/app/services/prompt_builder.py:121-190 | The estimate of the two assembled messages plus the output reservation never exceeds the total limit nor the context window, and the evidence stays within its own limit. |
| PromptBudget.LimitsAre | backend/app/services/prompt_builder.py:70-73 | The limits, where a missing or zero one stands for the context window. |
| PromptBudget.FixedUserIs | backend/app/services/prompt_builder.py:95-107 | The fixed part with the conversation only if there is one. |
| PromptBudget.FixedTokensAre | backend/app/services/prompt_builder.py:121-126 | What the fixed part costs. |
| PromptBudget.TextIs | backend/app/services/prompt_builder.py:137 | The text of a result, cut to the limit and stripped. |
| PromptBudget.BlockReads | backend/app/services/prompt_builder.py:141-163 | The evidence block with its labels and the lines on its source. |
| PromptBudget.Build | backend/app/services/prompt_builder.py:89-190 | The prompt is policy, fixed part, the chosen blocks and requirements; citation ids are C1..Cn in input order, each standing for its result; included plus excluded is the input; the two refusals are exact. |
| PromptBudget.Pack | backend/app/services/prompt_builder.py:130-174 | The packing loop takes exactly the greedily chosen results. |
| PromptBudget.LeftOutIff | backend/app/services/prompt_builder.py:136-174 | A result is taken if and only if its cut text is not blank, it equals no chosen one in normal form nor resembles one where both have a hundred characters, and its block fits what those before it left. |
| PromptBudget.ChosenDiffer | backend/app/services/prompt_builder.py:75-87 | The chosen results keep their order, have text, and none is like an earlier one. |
| PromptBudget.ConcatCost | backend/app/services/prompt_builder.py:48-50 | The estimate of a concatenation is at most the sum of the estimates. |
| PromptBudget.CitationIdsDiffer | backend/app/services/prompt_builder.py:141 | Different numbers give different citation ids. |
| PromptBudget.IsDuplicate | backend/app/services/prompt_builder.py:75-87 | Equal normal forms, or long ones that are similar. |
| PromptBudget.GenerationContext | backend/app/services/ai_conversation_service.py:206-248 | The longest suffix of completed non-empty messages within both limits, in order, and its joined text. |
| PromptBudget.LabelGoes | backend/app/services/ai_conversation_service.py:220 | Every citation label is taken out, whatever stands around it. |
| PromptBudget.NoLabelStays | backend/app/services/ai_conversation_service.py:220 | A text without a label is left alone. |
| PromptBudget.LineIs | backend/app/services/ai_conversation_service.py:221-222 | A line is the role and at most a thousand characters. |
| PromptBudget.EligibleAre | backend/app/services/ai_conversation_service.py:210-214 | A message counts if and only if it is completed and not empty. |
| PromptBudget.LongestIff | backend/app/services/ai_conversation_service.py:217-230 | The suffix is the one that a further message would take beyond a limit. |
| PromptBudget.HistoryTextCost | backend/app/services/ai_conversation_service.py:206-248 | The joined text's own estimate exceeds the limit by at most ceil((n - 1) / 4) for n lines. |
| PromptBudget.HistoryBoundIsTight | backend/app/services/ai_conversation_service.py:245 | The bound is reached whenever every line's length is a multiple of four. |
| RateLimiter.InMemoryRateLimiter.Allow | backend/app/core/rate_limit.py:15-24 | For call times that do not run backwards a call is admitted if and only if fewer than `limit` admissions of the key lie in (now - W, now], and only an admission is remembered. |
| RateLimiter.AtMostLimit | backend/app/core/rate_limit.py:15-24 | Any stretch of time whose moments are less than a window apart holds at most `limit` admissions. |
| RateLimiter.HalfOpenWindows | backend/app/core/rate_limit.py:15-24 | In particular every half-open interval of length W, open at either end. |
| RateLimiter.RecentIs | backend/app/core/rate_limit.py:15-24 | What is counted are the admissions of the last window, one by one. |
| RateLimiter.Prune | backend/app/core/rate_limit.py:19-20 | Dropping what has left the window counts what is in it. |

## Left out

- Parsers (PDF, DOCX, XLSX, CSV), HTTP, SQLAlchemy, Qdrant and file storage: parsed sections and answers are inputs.
- Token counts, job error texts, locked_by and worker heartbeats: written but never read by the modelled decisions.
- The administrator's delete route: it queues a DELETE job with a version id, which the retry route then mistakes for work.
- The exclusive worker lock: there is one worker.
- Accepting an upload is one transaction: a version row changed by another transaction during the upload is not split off.
- Text chunks and the ingestion pipeline: the chunker's answer is an input of the CHUNK stage, and the chunkers are proved apart.
- SheetRows.RowChunkReads: speaks of the header as first line only when the header is one line, because a header taken from a row of several lines is repeated before them.
- Connector choice in OperationalToolService.create, and names, capabilities, heartbeat history and last_seen_at of connectors: they would only add easy members.
- ToolLeases.LeasesAreDisjoint: assumes that the clock read before the row lock does not run backwards over the order of the locks.
- ConnectorSafety.LogExplainsStatus: takes a recalculation as one transaction; it reads rows without a lock, so two views at once can log the same STATUS_CHANGED twice.
- ConnectorSafety.ExpiredAtMostOnce: takes a listing as one transaction; it reads tokens without a lock, so two listings at once can log the same EXPIRED twice.
- ToolLeases.TerminalIsAbsorbing: takes reading a result as one transaction; it and the expiry sweep read rows without a lock, so an answer accepted in between can be overwritten with "expired".
- ToolLeases.AnsweredOnce: that a request's status tells of its answer rests on the same assumption.
- ToolLeases.OperationalToolService.Result: one transaction, as said above.
- DocumentMigration.Deduplicate: the vector index, which keeps the removed document ids, is not part of it; neither is the unique index on active DELETE jobs.
- PromptBudget.Build: the wording of the prompt is a parameter, and the similarity ratio an arbitrary relation.
- KnowledgeSearch.SettledSearch: searches filtered by connector or source are not modelled.
- Operational context in the conversation's history, the regenerate message of a second answer, and message states.
- TenantRegistry.SurvivesIff: host names are taken to resolve to their own key, that is, without a port and stable under folding.
- OidcLinking.LinkIsStable: the calls in between are sign-ins; an administrator's changes to users are not part of the model.
- The two-pass batch filter of the provider, which differs from the streaming one when removing a block forms a new tag.
