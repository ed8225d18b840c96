# Shaktiman: a Dafny model of its index machinery

Shaktiman indexes a code base: it cuts files into chunks, stores chunk rows and a symbol graph in SQLite,
keeps one embedding vector per chunk, and searches and packs chunks for a caller. This project models the
parts that keep those stores in step and the algorithms that search, split, pack and score, and proves what
they promise for every input, every outcome of the embedder and every interleaving.

| Part | Files |
|---|---|
| Embedding run: paging, shrinking batches, deferral, retries, breaker | `EmbedWorker`, `EmbedLedger`, `EmbedBatches`, `EmbedFates`, `Sanitizer`, `CircuitBreaker` |
| Flags and statuses in the database, their repair, and the clean-up of vectors | `EmbedStatus`, `Paging`, `Reconcile`, `StaleVectors` |
| Brute-force vector store: top-K heap, cosine, file format, saving | `VectorStore`, `ScoreHeap`, `TopK`, `Cosine`, `VectorFile`, `Disk` |
| Writer queue and drain protocol | `DaemonWriter`, `DaemonBlocking`, `WriterManager` |
| Symbol graph: resolved and pending edges, re-index jobs, neighbours | `Graph`, `GraphStore`, `Neighbors` |
| Session LRU with lazy decay | `Session` |
| Splitting, truncating, packing, scoring | `TextLines`, `Splitter`, `Truncation`, `Utf8`, `Assembler`, `Ranker` |

Objects that the source updates in place are classes here (`EmbedWorker`, `RunState`, `CircuitBreaker`,
`Store`, `VectorStore`, `ScoreHeap`, `GraphStore`, `SessionStore`, `WriterManager`, `Writer`); their methods are proved
against functions or relations on values, and the theorems are about those. The embedder, the clock,
cancellation and failing I/O are arbitrary functions of the number of questions of their kind asked so far, so a
contract about a run is about every sequence of outcomes. `dafny verify dfyconfig.toml` checks everything.

## What the proofs found

- `CircuitBreaker`: the comment at internal/vector/circuit_breaker.go:118 gives the backoff as 5 minutes, then 10,
  20, 40, 60. The code doubles before the first wait, so the first opening already waits 10 minutes
  (`FirstOpeningWaitsDouble`). A permanent error during a half-open probe records nothing, and then no request
  is let through until some outcome or a reset is recorded (`HalfOpenRefusesUntilRecord`); in an embedding run
  nothing does that, so the rest is given up (`WedgedRunGivesUp`).
- `EmbedProject` looks for lost vectors by comparing two counts. A vector whose chunk is gone hides a loss
  (`StrayVectorHidesLoss`); `RepairExactly` says when flags are right afterwards. A run marks the chunks it
  drops as embedded. After a finished run this repair brings them back (`NextRunRetriesDropped`); after one that
  was cancelled or failed it does so exactly when it counts fewer vectors than flags (`NextRunRetriesExactly`),
  which a vector stored but not marked can prevent (`FailedRunHidesLoss`).
- An index job writes `pending` into the file's row before it deletes the old chunks. If that deletion fails, an
  embedded file is pending (`CompleteFileTurnsPending`) until something touches it again; `HistoryRight` says
  exactly which statuses are wrong. An embedding run needs none of them to be right.
- A write job deletes the vectors of a file's old chunks only once it has succeeded, and only those of flagged
  chunks. `LeaksNothingExactly` says when none is left behind; `FailedJobLeavesStray` shows one that is, and it
  is there for good (`StraysStay`).
- Re-indexing a file deletes its symbols, and with them the edges that other files have into it. Those are
  not queued again (`CallersAreLost`); an edge survives exactly when it does not lead into the file
  (`CallerSurvivesExactly`), and `OthersKeepArcsExactly` says when the other file still has all it said.
- An index job whose edge transaction fails leaves its symbols and its hash behind. Pending edges that wait
  for one of the symbols are then left resolvable (`FailureUnsettles`, `FailureLeavesExactly`), until some
  successful job defines the name again (`HistoryLeaves`). Sending the job again does not help: the hash
  guard skips it (`RepetitionIsSkipped`).
- The store would resolve edges of a file without a language into another language (`CrossesExactly`); the
  pipeline sends no such file.
- `drain` waits for producers while nothing takes from the queue. `DrainClosesExactly` gives the states from
  which it can still close; `StuckIsReachable` shows one from which it cannot. `Signal` is sent without the
  lock, so a `Submit` can fall asleep on an empty queue (`MissedSignal`); without that race a sleeper always
  has somebody to wake it (`SleepersAreAttended`), and `WakesExactly` gives the states from which one can wake.
- `SaveToDisk` ignores a failing removal of its temporary file, which then stays; nothing else is ever seen
  half done.
- `DecayAllExcept` refreshes entries without moving them, after which eviction may take the less decayed
  entry (`DecayCanMisorder`, `DecayKeepsSortedExactly`).
- `splitLargeChunks` stops one line short of the chunk's end when the last line is empty and follows a line
  that fills a part alone (`SplitReachesEndExactly`, `HugeLineEndsEarly`).
- `truncateChunk` keeps the first non-empty line whatever it costs, so the budget can be exceeded
  (`TruncatedCanExceed`, `TruncatedFitsExactly`), and drops empty lines at the top (`PrefixExactly`,
  `BlankTopIsDropped`).

## Model

| member | source | states |
|---|---|---|
| EmbedWorkers.EmbedWorker.RunFromDB | internal/vector/embed_worker.go:250-313 | For any embedder, clock, cancellations and I/O failures: the run ends; without an error every chunk unembedded at the start is marked exactly once in id order, `embedded` equals the initial total, and the total is stored + skipped + rejected; an error has a cause (a cancelled or failing answer since the start, or a vector of the wrong length) and leaves sound books; the log of requests accounts for every answer of the embedder and every reading of the clock since the start, in order, and refuses exactly what the breaker refuses; a new vector is a healthy answer for that very chunk; a chunk dropped was refused for good or answered badly, and one given up was named by at least three requests (six, if cancellation is never taken back), each of which failed transiently or was refused; with a closed breaker, no cancellation, no I/O failure and healthy vectors of the right length there is no error and every chunk has its vector; every request of the first phase names what has no vector among as many chunks, in id order and up to the end of the page, as the batch size that the log before it leads to: full at the start and after vectors, halved by a transient failure while it is two or more; every later request names one chunk; at most log2 of the batch size halvings in a row |
| EmbedWorkers.EmbedWorker.WedgedRunGivesUp | internal/vector/embed_worker.go:250-313 | After a permanent error on a half-open probe, every chunk first requested later and without a vector is given up, whatever the embedder would have answered |
| EmbedWorkers.EmbedWorker.FirstPhase | internal/vector/embed_worker.go:272-301 | Pages by cursor until every chunk is marked; each page strictly adds marks, so the loop ends; an error has a cause; every chunk deferred has had its quick retries unless the run saw itself cancelled |
| EmbedWorkers.EmbedWorker.NextPage | internal/vector/embed_worker.go:273-301 | A page is embedded and the cursor moves past it, or no page is left and everything is marked, unless the run is cancelled or a store fails |
| EmbedWorkers.EmbedWorker.EmbedPage | internal/vector/embed_worker.go:284-300 | All ids of the page are marked in order and the cursor may move to its last id; each request takes a stretch of the batch size or the rest of the page; ends by (rest of the page, batch size) whatever errors shrink the batch |
| EmbedWorkers.EmbedWorker.NextOfPage | internal/vector/embed_worker.go:284-299 | One turn of the page loop: the next stretch, as long as the batch size or what is left of the page, is marked, or the batch size is halved, or the run aborts for a cause |
| EmbedWorkers.EmbedWorker.ReconcileAndEmbed | internal/vector/embed_worker.go:323-415 | A batch is settled and marked, or the batch size is halved and nothing else changed, or the run aborts for a cause with sound books; chunks are skipped only after a permanent error, stored only after vectors, deferred only after three requests that all failed or were refused, or a cancellation |
| EmbedWorkers.EmbedWorker.EmbedNeeded | internal/vector/embed_worker.go:357-415 | The same for the chunks that need a vector, in terms of the requests made for just these chunks |
| EmbedWorkers.EmbedWorker.NeedEmbedding | internal/vector/embed_worker.go:328-355 | Exactly the batch's ids without a vector, in order |
| EmbedWorkers.EmbedWorker.EmbedWithRetry | internal/vector/embed_worker.go:425-482 | One vector per text and the full batch size restored, or one halving after a transient error, or a permanent error; it gives up only after exactly three requests for these chunks, each refused by the breaker or failed transiently, or after a cancellation |
| EmbedWorkers.EmbedWorker.Attempt | internal/vector/embed_worker.go:428-478 | Exactly one request, passed on iff the breaker grants it at that time, unless the run is cancelled; an attempt that does not stop leaves the batch size alone |
| EmbedWorkers.EmbedWorker.AskBreaker | internal/vector/embed_worker.go:432-440 | The clock is read once, and the request is let through iff the breaker grants it at that reading; a refusal is logged as such |
| EmbedWorkers.EmbedWorker.CallEmbedder | internal/vector/embed_worker.go:445-475 | The embedder is asked once and its next answer logged; success and transient failure are reported to the breaker, a permanent error is not; only a transient failure with room shrinks the batch |
| EmbedWorkers.EmbedWorker.StoreBatch | internal/vector/embed_worker.go:384-412 | Healthy vectors are stored under their own chunk, the others booked as rejected, the batch marked |
| EmbedWorkers.EmbedWorker.RetryOne | internal/vector/embed_worker.go:495-540 | A deferred chunk is requested once, on its own, and then stored, skipped for a reason the embedder gave, or still waiting, the last exactly when the request failed or was refused; an error has a cause |
| EmbedWorkers.EmbedWorker.RetryPass | internal/vector/embed_worker.go:492-545 | A pass requests each deferred chunk exactly once, on its own and in order; exactly those whose request failed or was refused stay, in order; no mark changes |
| EmbedWorkers.EmbedWorker.RetryDeferred | internal/vector/embed_worker.go:486-560 | Without an error the requests are those of exactly three such passes, each over what the one before left; what is left then is given up and counted as skipped, and nothing waits |
| EmbedFates.StoreExplained | internal/vector/embed_worker.go:384-404 | Upserting what the sanitizer leaves puts each vector under the chunk it was returned for, and each chunk left out had an unhealthy vector |
| EmbedFates.StoreAccounted | internal/vector/embed_worker.go:384-404 | Once stored or rejected, the chunks of an answer are all accounted for |
| EmbedFates.MoreTries | internal/vector/embed_worker.go:425-482 | Later requests take no explanation away |
| EmbedFates.GoodLog | internal/vector/embed_worker.go:425-482 | With a closed breaker and an embedder that always answers well no request is ever refused |
| EmbedFates.GoodRunDropsNothing | internal/vector/embed_worker.go:250-313 | Such a run skips, rejects and gives up nothing |
| EmbedFates.ReplayGrows | internal/vector/embed_worker.go:428-475 | A request goes on from where the log before it leads: breaker, readings of the clock and answers of the embedder |
| EmbedFates.WedgedBy | internal/vector/embed_worker.go:425-482 | After a permanent error on a half-open probe every later request is refused |
| EmbedFates.LeftWasTried | internal/vector/embed_worker.go:486-560 | A chunk left after n passes was requested in each of them |
| EmbedBatches.BatchesGrow | internal/vector/embed_worker.go:425-482 | A request for the right stretch extends a log of such requests, and its outcome decides the next batch size |
| EmbedBatches.RequestsAreBounded | internal/vector/embed_worker.go:284-290 | A request names no more chunks than the batch size that the log before it leads to |
| EmbedBatches.RequestsAreFull | internal/vector/embed_worker.go:284-290 | Without stored vectors it names exactly that many consecutive chunks, unless its last one ends a page |
| EmbedBatches.IsPrefix | internal/vector/embed_worker.go:272-301 | What is marked in order, nothing left out before it, is a prefix of all unembedded chunks in order |
| EmbedLedgers.BatchStep | internal/vector/embed_worker.go:323-415 | Booking a batch keeps the account sound, marking it settles it, and the skip count grows by the chunks skipped |
| EmbedLedgers.PageBatch | internal/vector/embed_worker.go:284-290 | Any stretch of a page that follows what is marked consists of unmarked chunks and keeps the marks ascending |
| EmbedLedgers.PageFollows | internal/vector/embed_worker.go:273-301 | The next page is the stretch of 256 chunks, or what is left, that follows the marked ones in the order of all chunks the run began with |
| EmbedLedgers.NeedFits | internal/vector/embed_worker.go:323-355 | What a batch needs is what it lacked when the run began, so a request is for a stretch of that order less the chunks with a vector |
| EmbedLedgers.NothingLeft | internal/vector/embed_worker.go:280-282 | An empty page above the cursor means every chunk has been marked |
| EmbedLedgers.Conservation | internal/vector/embed_worker.go:232-313 | At the end the chunks split exactly into stored, skipped and rejected |
| EmbedLedgers.StatusesStayRight | internal/vector/embed_worker.go:250-313 | Statuses that were right when a run began are right whenever it ends |
| Sanitizing.ScanVectorHealth | internal/vector/embed_validate.go:117-135 | `Fine` iff no component is NaN or infinite and some component is not zero; every other verdict is right |
| Sanitizing.KindsOfFloat | internal/vector/embed_validate.go:117-135 | The tests on bit patterns are those of IEEE 754 on sign, exponent and fraction |
| Sanitizing.SanitizeEmbeddings | internal/vector/embed_validate.go:23-95 | Keeps exactly the healthy vectors with their ids, in order, and counts the rest |
| CircuitBreaking.CircuitBreaker.Allow | internal/vector/circuit_breaker.go:51-74 | Grants as the state, the cooldown and the probe flag say, and becomes half-open with a probe out when an open breaker grants |
| CircuitBreaking.CircuitBreaker.RecordSuccess | internal/vector/circuit_breaker.go:77-92 | Closed, streak and cycles zero, base cooldown |
| CircuitBreaking.CircuitBreaker.RecordFailure | internal/vector/circuit_breaker.go:95-123 | Opens after a failed probe or the third failure in a row, at the time given, doubling the cooldown up to the cap |
| CircuitBreaking.CircuitBreaker.Reset | internal/vector/circuit_breaker.go:133-141 | Back to a closed breaker |
| CircuitBreaking.ReachableInvariant | internal/vector/circuit_breaker.go:51-141 | After any history: half-open iff a probe is out, cooldown is the base doubled per opening up to the cap, fewer failures counted than the threshold |
| CircuitBreaking.StreakDecidesState | internal/vector/circuit_breaker.go:95-123 | Closed iff the failures since the last success or reset are fewer than the threshold |
| CircuitBreaking.HalfOpenRefusesUntilRecord | internal/vector/circuit_breaker.go:51-74 | After entering half-open no request passes at any time until an outcome or reset is recorded |
| CircuitBreaking.ProbesAreSeparated | internal/vector/circuit_breaker.go:51-123 | Two grants with the first not from a closed breaker have a recorded outcome between them |
| CircuitBreaking.GrantsExactly | internal/vector/circuit_breaker.go:51-123 | A request passes iff the streak of failures is short, or no probe is out and the cooldown, the base doubled once per opening since the last success or reset and capped, has run out since the failure that last opened the breaker; all read off the history of events |
| CircuitBreaking.RunReflectsHistory | internal/vector/circuit_breaker.go:51-123 | After any history the breaker's openings since the last success or reset, the time of the last one, its counted failures and its state are those of the history |
| CircuitBreaking.OpeningsAreFailures | internal/vector/circuit_breaker.go:95-123 | Every opening is a recorded failure of that time, and there is one iff the streak of failures has reached the threshold |
| CircuitBreaking.FirstOpeningWaitsDouble | internal/vector/circuit_breaker.go:95-123 | After three failures a request passes iff more than 600 seconds, twice the base cooldown, have gone by since the third |
| CircuitBreaking.FailedProbeWaitsLonger | internal/vector/circuit_breaker.go:98-107 | If the probe after that fails, one passes iff more than 1200 seconds have gone by since its failure |
| EmbedStatus.Store.SetEmbedded | internal/storage/sqlite/embed_status.go:28-41 | The 500-id batches set the same flags as one unbatched update |
| EmbedStatus.Store.AffectedFiles | internal/storage/sqlite/embed_status.go:43-64 | Exactly the files of the ids, none twice across batches |
| EmbedStatus.Store.MarkEmbedded | internal/storage/embedstatus/state.go:45-74 | Flags and statuses after a mark, as the unbatched rule gives them |
| EmbedStatus.Store.ResetFlags | internal/storage/embedstatus/state.go:79-104 | Flags and statuses after a reset |
| EmbedStatus.Store.ResetAllFlags | internal/storage/sqlite/metadata.go:551-566 | All flags clear and all files pending |
| EmbedStatus.StatusMeaning | internal/storage/embedstatus/state.go:1-44 | Complete iff there are chunks and all are embedded, partial iff some but not all, pending iff none |
| EmbedStatus.MarkRecomputes | internal/storage/embedstatus/state.go:45-74 | A mark leaves every status as its chunks call for; the rule keeping `complete` never decides anything |
| EmbedStatus.ResetRecomputes | internal/storage/embedstatus/state.go:79-104 | So does a reset |
| EmbedStatus.ResetAllRecomputes | internal/storage/sqlite/metadata.go:551-566 | So does a reset of all flags |
| EmbedStatus.ReindexRecomputes | internal/daemon/writer.go:255-302 | So does a re-index, taken as one step |
| EmbedStatus.DeleteRecomputes | internal/storage/sqlite/metadata.go:149-165 | So does deleting a file |
| EmbedStatus.HistoryConsistent | internal/storage/embedstatus/state.go:45-104 | After any history of these in which no re-index fails to delete the old chunks, every status says what the file's chunks say |
| EmbedStatus.HistoryRight | internal/daemon/writer.go:272-282 | After any history a status is wrong iff a re-index that could not delete the old chunks was the last to touch the file and some of them are embedded; it is then pending |
| EmbedStatus.RowWrittenExactly | internal/daemon/writer.go:272-282 | Such a failure leaves every status right iff the file has no embedded chunk |
| EmbedStatus.CompleteFileTurnsPending | internal/daemon/writer.go:272-282 | A history that ends with a pending file whose one chunk is embedded |
| EmbedStatus.MarkTwice | internal/storage/embedstatus/state.go:45-74 | Two marks are one mark of both sets, whatever the statuses were |
| Paging.PageCovers | internal/storage/sqlite/metadata.go:510-529 | A page is ascending, misses nothing up to its last id, and is empty only at the end |
| Reconciling.ReconcileEmbeddedFlags | internal/daemon/daemon.go:372-404 | Visits each flagged chunk once in id order, ends, and resets exactly those without a vector |
| Reconciling.RepairedFlags | internal/daemon/daemon.go:372-404 | The flags left are the old ones intersected with the stored vectors, and statuses stay right |
| Reconciling.ReconcileBeforeEmbedding | internal/daemon/daemon.go:333-352 | Chooses full reset, repair or nothing by the two counts |
| Reconciling.RepairExactly | internal/daemon/daemon.go:333-352 | Afterwards a set flag implies a vector iff that was so before or fewer vectors than flags were counted |
| Reconciling.StrayVectorHidesLoss | internal/daemon/daemon.go:333-352 | A database and vector set where the counts agree and a loss stays |
| Reconciling.RepairCompleteWithoutStrays | internal/daemon/daemon.go:333-352 | Without stray vectors the flags become exactly the stored vectors |
| Reconciling.NextRunRetriesDropped | internal/daemon/daemon.go:333-355 | After a finished run the flagged chunks without a vector are those it skipped or rejected, and the repair before the next run makes exactly those unembedded again; vectors without a flag at the start are allowed |
| Reconciling.FlagsWithoutVector | internal/daemon/daemon.go:333-355 | After any run, cancelled and failed ones included, the flags without a vector are those it began with, and its marks for chunks that it skipped, rejected or still held |
| Reconciling.NextRunRetriesExactly | internal/daemon/daemon.go:333-355 | After any run the next one retries all flagged chunks without a vector or none of them; all iff there are none or fewer vectors than flags are counted |
| Reconciling.FailedRunHidesLoss | internal/daemon/daemon.go:333-355 | A run that fails between storing a vector and marking its chunk, after which the counts agree and a chunk dropped before is not retried |
| StaleVectors.Writer.Enrich | internal/daemon/writer.go:255-390 | The first operation that fails says how far the job gets; old chunks go and new ones come that far, and vectors of the listed, flagged old chunks are deleted only if all stages succeed |
| StaleVectors.Writer.DeleteFile | internal/daemon/writer.go:202-214 | The same for a delete job |
| StaleVectors.StraysAfterJob | internal/daemon/writer.go:169-194 | The vectors without a chunk after a job are those before and the ones it leaks |
| StaleVectors.OthersSurvive | internal/daemon/writer.go:169-194 | A job keeps the rows of every other file's chunks and loses no vector but those of its own file's chunks; it makes none |
| StaleVectors.FinishedReplaces | internal/daemon/writer.go:255-302 | A job that ends well leaves its file with as many chunks as it brought, all with new ids and none flagged |
| StaleVectors.LeaksNothingExactly | internal/daemon/writer.go:169-194 | A job leaks nothing iff it failed before the deletion, the file had no vectors, or it finished with a working clean-up that listed every chunk with a vector, each of them flagged |
| StaleVectors.NoStraysExactly | internal/daemon/writer.go:169-194 | After any history every vector has its chunk iff no job has leaked one |
| StaleVectors.StraysStay | internal/daemon/writer.go:169-194 | A vector without a chunk stays without one, as ids are not used twice |
| StaleVectors.FailedJobLeavesStray | internal/daemon/writer.go:169-194 | A history whose last job fails after the deletion and leaves a vector behind |
| VectorStores.VectorStore.Upsert | internal/vector/bruteforce/store.go:122-131 | Stores a vector of the right length, refuses any other |
| VectorStores.VectorStore.UpsertBatch | internal/vector/bruteforce/store.go:134-145 | All of the batch in order, or nothing if a length is wrong |
| VectorStores.LastOneStays | internal/vector/bruteforce/store.go:134-145 | After a batch each id in it has its last vector there |
| VectorStores.OthersKeepTheirs | internal/vector/bruteforce/store.go:134-145 | All other ids have the vectors they had |
| VectorStores.VectorStore.Delete | internal/vector/bruteforce/store.go:147-155 | Removes exactly the given ids |
| VectorStores.VectorStore.Search | internal/vector/bruteforce/store.go:62-119 | For every map order: the K best of the valid entries, best first; the error and empty cases |
| VectorStores.SearchReturnsBest | internal/vector/bruteforce/store.go:62-119 | Distinct stored ids with their own similarities; a valid vector left out is no better than any returned |
| VectorStores.SearchReturnsEnough | internal/vector/bruteforce/store.go:62-119 | It returns K results, or every valid vector if there are fewer |
| VectorStores.VectorStore.PopAll | internal/vector/bruteforce/store.go:103-117 | Emptying the heap gives its elements in descending order |
| VectorStores.VectorStore.SaveToDisk | internal/vector/bruteforce/store.go:194-275 | Succeeds iff every step does; then the path holds the whole file. After a failure nothing has changed except perhaps the temporary file, which stays only if its removal fails. At every moment in between the directory is the old one but for the temporary file, or the final one, so no reader finds a partial file at the path |
| Disks.Disk.Write | internal/vector/bruteforce/store.go:221-258 | However many bytes get through, what is in the file and what the buffer holds are together what was written, and no other file changes |
| VectorStores.WriteEntry | internal/vector/bruteforce/store.go:236-250 | The reused buffer holds exactly the entry, nothing of the one before |
| VectorStores.VectorStore.LoadFromDisk | internal/vector/bruteforce/store.go:280-370 | Store replaced by the parsed file, or the reported error with vectors and dimension unchanged, a wrong checksum among them (`LoadsExactly`); no file, a file that does not open, and a read that fails at any byte are told apart from the contents that the loader refuses |
| VectorFile.SaveLoadRoundTrip | internal/vector/bruteforce/store.go:186-370 | Loading a saved file gives back map and dimension for every map order, exactly when sizes are in bounds and the dimension fits; else which error |
| VectorFile.ParsedIsSound | internal/vector/bruteforce/store.go:280-370 | Whatever the bytes, a load that succeeds has vectors of one bounded, expected length |
| VectorFile.LoadsExactly | internal/vector/bruteforce/store.go:280-370 | A file loads iff its header and length are right and, in version 2, its entries are followed by the checksum of everything before; it is refused for its checksum iff one is there and differs |
| VectorFile.DamagedChecksum | internal/vector/bruteforce/store.go:347-357 | A saved file whose last four bytes hold any other number is refused for its checksum |
| VectorFile.VersionOneLoads | internal/vector/bruteforce/store.go:280-370 | A file of version 1, which has no checksum, loads as saved |
| VectorFile.SmallFile | internal/vector/bruteforce/store.go:194-258 | The bytes of a file with one vector of one component |
| ScoreHeaps.ScoreHeap.Push | internal/vector/bruteforce/store.go:46-60 | Heap kept, one element added |
| ScoreHeaps.ScoreHeap.Pop | internal/vector/bruteforce/store.go:46-60 | Heap kept, the root removed |
| ScoreHeaps.ScoreHeap.ReplaceRoot | internal/vector/bruteforce/store.go:93-101 | Heap kept, the root replaced |
| ScoreHeaps.RootIsLeast | internal/vector/bruteforce/store.go:46-60 | The root scores least |
| TopKs.TopKIsSortAndTake | internal/vector/bruteforce/store.go:62-119 | A top-K result has the scores of the first K of any full descending sort |
| Cosine.Sums | internal/vector/bruteforce/store.go:375-389 | The four-fold loop with its tail gives the plain sums for every length |
| Cosine.CosineSimilarity | internal/vector/bruteforce/store.go:375-395 | The cosine, within -1 and 1, of which the lemmas on the similarity below say what it means |
| Cosine.CauchySchwarz | internal/vector/bruteforce/store.go:375-395 | Dot product squared is at most the product of the squared norms |
| Cosine.SimilarityInRange | internal/vector/bruteforce/store.go:390-395 | The similarity lies between -1 and 1 |
| Cosine.SimilarityTimesNorms | internal/vector/bruteforce/store.go:390-395 | Times the product of the norms it is the dot product |
| Cosine.SimilaritySign | internal/vector/bruteforce/store.go:375-395 | It has the sign of the dot product, and is zero iff that is; a zero norm makes both zero |
| Cosine.SimilarityOfMultiples | internal/vector/bruteforce/store.go:375-395 | 1 for a vector that is not zero and each positive multiple of it, -1 for each negative one |
| Cosine.SimilarityScales | internal/vector/bruteforce/store.go:375-395 | A positive factor on a vector does not change it |
| Cosine.SimilarityNegates | internal/vector/bruteforce/store.go:375-395 | Turning a vector round negates it |
| Cosine.SimilaritySymmetric | internal/vector/bruteforce/store.go:375-395 | It does not depend on the order of two vectors of one length |
| Cosine.DotOfUnit | internal/vector/bruteforce/store.go:375-389 | The product with a unit vector is that component; with `DotOfSum` and `DotScaled` this fixes the dot product |
| DaemonWriter.ReachableInvariant | internal/daemon/writer.go:57-160 | In every interleaving: accepted jobs are the processed ones, the one in flight and the queue, in order, none twice; every call is in one place; the queue is bounded; once closed no producer is registered and nobody blocked |
| DaemonWriter.DrainIsFinal | internal/daemon/writer.go:76-107 | Once draining no producer joins; once closed nothing is accepted; once finished nothing is processed |
| DaemonWriter.CleanDrainProcessesAll | internal/daemon/writer.go:76-107 | A drain that ends without its deadline has processed every job ever accepted, exactly once and in order, and none is accepted later |
| DaemonWriter.TimedOutDrainDropsTheTail | internal/daemon/writer.go:94-103 | A drain that times out has processed a prefix; the rest is the queue |
| DaemonWriter.SubmitTellsTheTruth | internal/daemon/writer.go:114-143 | A call that returned nil is queued, in flight or processed ever after; one that returned an error never is, and only a closed writer refuses |
| DaemonWriter.RegisteredExactly | internal/daemon/writer.go:76-157 | In every interleaving a producer is registered iff it joined before the drain began and has not left, however many had joined before; draining and closed say which steps of the drain have happened |
| DaemonWriter.SubmitExactly | internal/daemon/writer.go:114-143 | A new call is refused iff the writer was closed before, accepted iff not and the channel has room or the writer waits for a job, and goes to sleep otherwise |
| DaemonBlocking.DrainClosesExactly | internal/daemon/writer.go:76-92 | A waiting drain can still close iff no registered producer's call sleeps and those woken fit the queue |
| DaemonBlocking.StuckForever | internal/daemon/writer.go:76-92 | Otherwise it never closes, whatever happens |
| DaemonBlocking.StuckIsReachable | internal/daemon/writer.go:57-143 | A run that gets there |
| DaemonBlocking.SleepersAreAttended | internal/daemon/writer.go:57-143 | Unless a Signal falls between a failed send and the sleep, a sleeping Submit has a queued or running job or a woken call before it |
| DaemonBlocking.MissedSignal | internal/daemon/writer.go:62-64 | A run in which it does and a Submit sleeps on an empty queue of a running writer |
| DaemonBlocking.UnattendedSleepsOn | internal/daemon/writer.go:57-143 | Nobody who sleeps unattended wakes up without another Submit or the drain |
| DaemonBlocking.WakesExactly | internal/daemon/writer.go:57-143 | Before the drain some sleeping Submit can still be woken, by some interleaving and without a new Submit, iff there is a queued or running job or a woken call |
| WriterManagers.WriterManager.TrySend | internal/daemon/writer.go:119-142 | One pass of Submit's loop: refused if closed, accepted if there is room, else accepted by an idle receiver or about to wait |
| WriterManagers.WriterManager.AddProducer | internal/daemon/writer.go:149-157 | Registers, next to those there are, iff the writer is neither draining nor closed |
| WriterManagers.WriterManager.ProcessNext | internal/daemon/writer.go:62-64 | Takes the oldest job, processes it, wakes one sleeper if there is any |
| WriterManagers.WriterManager.CloseAndWakeAll | internal/daemon/writer.go:86-92 | Once no producer is left: closed, and every sleeping Submit woken |
| WriterManagers.WriterManager.DrainQueue | internal/daemon/writer.go:94-106 | Ends; without the deadline everything accepted is processed; a timeout is due to the arm of the deadline being taken, and leaves the jobs not taken at the looks before |
| GraphStores.GraphStore.LookupSymbol | internal/storage/sqlite/graph.go:291-329 | By the tables alone: the file's own symbol of that name if it has one, else one of the same language, else, if there is no language, any; 0 iff none of these |
| GraphStores.GraphStore.InsertEdges | internal/storage/sqlite/graph.go:17-62 | Each parsed edge with a known source is in the table it belongs to, nothing else is added, nothing else changes; where its edges end is `ReindexOwnTargets` |
| GraphStores.GraphStore.ResolvePendingEdges | internal/storage/sqlite/graph.go:68-147 | Exactly the pending edges to these names that have a target move to the edges |
| GraphStores.GraphStore.UpsertFile | internal/storage/sqlite/metadata.go:41-80 | The row with this path, or a new one, holds the record |
| GraphStores.GraphStore.InsertSymbols | internal/storage/sqlite/metadata.go:320-348 | One symbol per name with an id never used before |
| GraphStores.FirstIds | internal/daemon/writer.go:342-355 | Each name maps to its first symbol |
| GraphStores.GraphStore.IndexFile | internal/daemon/writer.go:224-392 | Skipped exactly by the hash or staleness guard, so never a changed file that is not older than its row; a success goes through all stages, none of which failed, and brings one symbol for each parsed one in a chunk of the job, in order; a failure is due to the first operation that fails and leaves the tables of that stage |
| GraphStores.GraphStore.DeleteFile | internal/daemon/writer.go:202-214 | The file with everything that depends on it, or nothing if there is none |
| SymbolGraph.ReindexSettles | internal/daemon/writer.go:224-392 | A successful re-index keeps: edges join symbols of one language, no pending edge names a symbol its language defines, foreign keys hold; and it settles whatever failed jobs have left waiting for its names |
| SymbolGraph.ReindexArcs | internal/daemon/writer.go:224-392 | Whatever failed jobs have left before: the file has exactly the arcs of its parse, each in exactly one table; every other file has those it had once the old symbols were gone |
| SymbolGraph.ReindexOwnTargets | internal/daemon/writer.go:325-390 | After a successful re-index each parsed edge between two of the file's names joins the file's own symbols, and every edge of the file to one of its names ends at its own symbol, whatever other files define |
| SymbolGraph.ReindexKeepsOthers | internal/daemon/writer.go:255-355 | The other files' rows and symbols are as before, and the file has the job's record and exactly the names of the parsed symbols in its chunks |
| SymbolGraph.InChunksExactly | internal/daemon/writer.go:325-341 | The names a job brings are those of the parsed symbols whose chunk index is one of its chunks |
| SymbolGraph.ReindexApart | internal/daemon/writer.go:224-392 | A re-index leaves the two tables of its file without a common arc, and those of another file if they were so before |
| SymbolGraph.HistorySettled | internal/daemon/writer.go:198-392 | So after every history of jobs that do not fail |
| SymbolGraph.FailedJobSound | internal/daemon/writer.go:224-392 | A job that fails at any stage keeps languages and foreign keys right, as its path keeps its language |
| SymbolGraph.FailureLeavesExactly | internal/daemon/writer.go:325-390 | After a job whose edge transaction failed a pending edge is left resolvable iff it was so once the old symbols were gone, or it waits for one of the new symbols in that language |
| SymbolGraph.SettledAfterFailureExactly | internal/daemon/writer.go:325-390 | So a settled store stays settled iff no other file has a pending edge, of that language, to a name the job defined |
| SymbolGraph.FailureUnsettles | internal/daemon/writer.go:380-390 | A settled store and a job after whose failure an edge is left resolvable, with the hash written |
| SymbolGraph.HistoryLeaves | internal/daemon/writer.go:198-392 | After every history of jobs, whichever fail and wherever: the tables are sound, and an edge is left resolvable only if it waits for a symbol of a failed job that no successful one has defined since |
| SymbolGraph.HistoryApart | internal/daemon/writer.go:198-392 | After every history of jobs, whichever fail and wherever, an arc is never both resolved and pending |
| SymbolGraph.RepetitionIsSkipped | internal/daemon/writer.go:230-247 | A failed job that changed the tables has written its hash: until another job writes or deletes its path, the same job sent again is skipped every time and the tables stay as they are |
| SymbolGraph.DeletedSettles | internal/storage/sqlite/metadata.go:149-165 | Deleting a file keeps all of it and makes no pending edge resolvable |
| SymbolGraph.DeletedKeepsOthers | internal/storage/sqlite/metadata.go:149-165 | It takes the file, its symbols, the edges that touch one of them and its pending edges, and changes no other row |
| SymbolGraph.TablesDisjoint | internal/storage/sqlite/graph.go:17-147 | If no edge and pending row of a file say the same, no arc of it is both resolved and pending |
| SymbolGraph.InsertedArcs | internal/storage/sqlite/graph.go:17-62 | Inserting gives the file exactly the arcs of the parse |
| SymbolGraph.ResolvedKeepsArcs | internal/storage/sqlite/graph.go:68-147 | Resolving moves arcs between the tables and loses none |
| SymbolGraph.ResolvedSettles | internal/storage/sqlite/graph.go:68-147 | No pending edge to one of the names stays resolvable, and no other becomes so |
| SymbolGraph.CallerSurvivesExactly | internal/daemon/writer.go:271-273 | Another file's edge is still there after a re-index iff it does not lead into the re-indexed file |
| SymbolGraph.OthersKeepArcsExactly | internal/daemon/writer.go:271-273 | Another file keeps its arcs iff for each of its edges into the file it has an edge elsewhere with the same source, kind and target name, or a pending edge with the same source, kind and name |
| SymbolGraph.NothingRequeued | internal/daemon/writer.go:271-273 | The lost edges leave no pending edge behind |
| SymbolGraph.CallersAreLost | internal/daemon/writer.go:271-273 | A caller whose only edge is gone after the called file is re-indexed |
| SymbolGraph.CrossesExactly | internal/storage/sqlite/graph.go:291-329 | A lookup leaves the file's language iff the file has none, does not define the name, and another language does |
| SymbolGraph.CandidateFinds | internal/storage/sqlite/graph.go:291-329 | Any candidate is the file's own symbol if it defines the name, else one of its language, else any if there is no language |
| SymbolGraph.EdgeWithoutLanguageCrosses | internal/storage/sqlite/graph.go:17-62 | For the interface of the store alone, as the pipeline skips files without a language (internal/daemon/enrichment.go:275-278): an edge of such a file that ends in another language |
| GraphNeighbors.Neighbors | internal/storage/sqlite/graph.go:152-205 | Without repeats, exactly the symbols at the end of a walk of one to the clamped depth edges, outgoing, incoming or either; an unknown direction is an error |
| GraphNeighbors.NeighborsCTE | internal/storage/sqlite/graph.go:207-223 | The recursive query returns exactly the reachable symbols, each once, and ends on cycles |
| GraphNeighbors.RecursiveRows | internal/storage/sqlite/graph.go:162-180 | Its rows are exactly the pairs of symbol and walk length up to the depth |
| GraphNeighbors.IncomingIsOutgoingReversed | internal/storage/sqlite/graph.go:152-205 | y is outgoing from x iff x is incoming to y |
| GraphNeighbors.OneStepIsAnEdge | internal/storage/sqlite/graph.go:162-195 | Within one step outgoing from x are the targets of the edges with source x, incoming the sources of those with target x |
| SessionTracking.KeysIdentifyLocations | internal/core/session.go:51-53 | Two locations share a key only if they are equal, colons in paths included |
| SessionTracking.SessionStore.RecordAccess | internal/core/session.go:56-88 | Entry refreshed and moved to the back, or room made and added |
| SessionTracking.SessionStore.RecordBatch | internal/core/session.go:132-160 | The same for each hit in turn |
| SessionTracking.SessionStore.RecordAndDecay | internal/core/session.go:94-128 | One generation more, then the hits |
| SessionTracking.SessionStore.DecayAllExcept | internal/core/session.go:207-219 | One generation more, hits exempted in place |
| SessionTracking.SessionStore.EvictIfNeeded | internal/core/session.go:230-239 | Room for one entry, taken from the front |
| SessionTracking.RunConsistent | internal/core/session.go:56-239 | After any history map and list hold the same keys, each once, within the capacity |
| SessionTracking.LazyDecayCountsMissedQueries | internal/core/session.go:94-219 | Generation minus last generation is the number of queries that missed the entry |
| SessionTracking.ListIsLeastRecentlyUsedOrder | internal/core/session.go:56-239 | The list is the most recently recorded locations in order of last use |
| SessionTracking.ByLastUseAscends | internal/core/session.go:56-239 | That order has each recorded location once, sorted by the place of its last use in the log |
| SessionTracking.HeldExactly | internal/core/session.go:56-239 | After any history a location is held iff it was recorded and fewer than the capacity of others were since its last use |
| SessionTracking.LastAccessedIsLastTime | internal/core/session.go:56-160 | The time of an entry is that of the last operation that recorded its location |
| SessionTracking.AccessCountIsUsesWhileHeld | internal/core/session.go:56-239 | Its count is the number of accesses since the location last came in |
| SessionTracking.AccessCountCountsAll | internal/core/session.go:56-239 | As long as no more locations than fit were ever recorded, it is the number of all its accesses |
| SessionTracking.RecordingKeepsSorted | internal/core/session.go:56-160 | Without DecayAllExcept the list stays sorted by generation |
| SessionTracking.EvictionTakesMostDecayed | internal/core/session.go:230-239 | Then the next entry to go has missed the most queries |
| SessionTracking.DecayKeepsSortedExactly | internal/core/session.go:207-219 | DecayAllExcept keeps the list sorted iff the hits are at its back |
| SessionTracking.DecayCanMisorder | internal/core/session.go:207-239 | A history after which eviction takes the less decayed entry |
| Utf8.TruncateBytesAtRune | internal/core/fallback.go:87-107 | For valid input and a positive cap, the longest valid prefix within it, at most 3 bytes short; for any input, a prefix within the cap ending in a rune |
| Utf8.LongestValidPrefix | internal/core/fallback.go:87-107 | The last cut that ends in a rune is the longest valid prefix |
| Utf8.ValidEndsSomewhere | internal/core/fallback.go:92-93 | Valid UTF-8 ends in a well-formed rune of one to four bytes |
| Utf8.InsideRune | internal/core/fallback.go:98-103 | No cut inside a rune does |
| Utf8.RunesEncode | internal/core/fallback.go:98-103 | A rune is exactly the encoding of a code point that is no surrogate, as section 3 of RFC 3629 has it |
| Utf8.ValidExactly | internal/core/fallback.go:87-107 | Valid input is exactly the encoding of a sequence of such code points |
| TextLines.LinesRoundTrip | internal/parser/chunker.go:459-500 | Splitting at newlines and writing the lines back gives the text |
| Splitting.SplitChunk | internal/parser/chunker.go:459-510 | Parts cut as late as the token limit allows, numbered, with their line ranges; they concatenate to the content |
| Splitting.SplitLargeChunks | internal/parser/chunker.go:451-513 | Chunks within the limit kept, larger ones split in place; the whole text is kept in order |
| Splitting.SplitLosesNothing | internal/parser/chunker.go:459-510 | The parts concatenate to the content |
| Splitting.SplitTilesLines | internal/parser/chunker.go:476-510 | Parts start at the chunk's first line and each begins one line after the one before ends |
| Splitting.SplitReachesEndExactly | internal/parser/chunker.go:498-510 | The last part covers the chunk's last line except after one stated case |
| Splitting.HugeLineEndsEarly | internal/parser/chunker.go:498-510 | For any tokenizer, a chunk of a line as long as the limit and its newline: the one part ends a line before the chunk |
| Splitting.SplitIsUnique | internal/parser/chunker.go:459-510 | Cutting as late as the token limit allows fixes the split: every part of several lines is below the limit, and one more line would not be |
| Splitting.PartsFillTheLimit | internal/parser/chunker.go:476-497 | For a tokenizer that adds up over concatenation and counts a newline as one token: a part of several lines has fewer than 1024 tokens, and with the next line would have 1024 or more |
| Splitting.PassLosesNothing | internal/parser/chunker.go:451-513 | The whole pass neither loses nor moves text |
| Truncating.TruncateText | internal/core/assembler.go:211-233 | As many lines as fit, joined, and what they cost; within the budget iff the lines up to the first non-empty one are |
| Truncating.FitsExactly | internal/core/assembler.go:211-233 | The cut fits the budget iff the lines up to the first non-empty one do |
| Truncating.TakesLinesUnique | internal/core/assembler.go:211-233 | The budget fixes the number of lines |
| Truncating.CostOfText | internal/core/assembler.go:217-221 | Lines are charged at least a quarter of their bytes, newlines included, and at most one token more for each line |
| Truncating.CutIsPaidFor | internal/core/assembler.go:211-233 | A cut text has at most four bytes for each token charged |
| Truncating.PrefixExactly | internal/core/assembler.go:211-233 | The cut is a prefix of the chunk iff no empty top line was dropped |
| Truncating.BlankTopIsDropped | internal/core/assembler.go:211-233 | A text whose cut, well within the budget, is no prefix of it |
| Assembling.HasLineOverlap | internal/core/assembler.go:180-208 | True iff some selected chunk of the same file covers more than half of the candidate's lines |
| Assembling.SharedLinesCounts | internal/core/assembler.go:190-203 | The computed overlap is the number of shared lines |
| Assembling.MostlyInsideCounts | internal/core/assembler.go:180-208 | A chunk overlaps another of its file iff twice the number of line numbers they share exceeds the number of its own |
| Assembling.Pack | internal/core/assembler.go:29-65 | Greedy packing in rank order, accounted to the token: up to the pick that uses up the budget, or the last candidate if none does, a candidate is passed over only for overlapping a pick before it; the top candidate is cut instead iff it is too long for the budget |
| Assembling.PackedUnique | internal/core/assembler.go:29-65 | Candidates in rank order and the budget fix the packing, the picks and the flags |
| Assembling.TruncatesExactly | internal/core/assembler.go:51-56 | The packing is a truncation iff the top candidate is longer than a positive budget |
| Assembling.CollectNeighbors | internal/core/assembler.go:117-158 | Every reached, unselected candidate once |
| Assembling.PackNeighbors | internal/core/assembler.go:160-177 | In score order, each is added if it fits what those added before it left, and passed over only if it does not |
| Assembling.StructuralExpand | internal/core/assembler.go:117-177 | Every reached, unselected candidate, best first, added iff it fits what those added before it left; within the expansion budget |
| Assembling.Assemble | internal/core/assembler.go:25-112 | The package is a packing and an expansion with their exact total and flags; without a flag it fits the budget |
| Assembling.UnflaggedFitsBudget | internal/core/assembler.go:25-112 | Without a flag the total, expansion included, is within the budget |
| Assembling.OverflowIsOneChunk | internal/core/assembler.go:25-112 | With overflow all chunks but the last are below the budget and the reported excess is exact |
| Assembling.TruncatedFitsExactly | internal/core/assembler.go:25-112 | A package is truncated iff its top candidate is too long; it is then that chunk alone, and fits iff its forced lines do |
| Assembling.TruncatedCanExceed | internal/core/assembler.go:51-56 | A candidate of one line for which Assemble, with a budget of one, returns a package over its budget |
| Assembling.NeverEmpty | internal/core/assembler.go:29-65 | Candidates and a positive budget never give an empty package |
| Assembling.ExpansionAddsOverlapRejects | internal/core/assembler.go:38-74 | Expansion adds only distinct candidates that packing rejected for overlap |
| Assembling.ExpansionShare | internal/core/assembler.go:67-74 | Expansion takes at most thirty percent of what packing left of the budget, and leaves a neighbour out only if with some of those added it would exceed that |
| Assembling.PicksDescendWithoutOverlap | internal/core/assembler.go:29-65 | Picks come in descending score and none lies mostly inside an earlier one |
| Ranking.ComputeStructuralScoresLegacy | internal/core/ranker.go:226-262 | The scores, item by item |
| Ranking.ComputeStructuralScoresBatch | internal/core/ranker.go:149-222 | The scores, by batched queries |
| Ranking.ScoresUnique | internal/core/ranker.go:149-262 | There is one such map, so the two scorers agree |
| Ranking.OverlapCounts | internal/core/ranker.go:240-258 | The overlap is the number of listed places whose symbol lies in the chunk of another candidate |
| Ranking.ScoreByHits | internal/core/ranker.go:226-262 | A candidate scores n out of n + 1 for n > 0 such places of its symbol's neighbours, and has no score otherwise |
| Ranking.ScoresGrow | internal/core/ranker.go:256-259 | A score lies strictly between 0 and 1, and more places always score more |
| Ranking.BothScorersAgree | internal/core/ranker.go:142-262 | Run on the same store and candidates they return the same map |
| Ranking.LookupSymbolForChunk | internal/core/ranker.go:266-283 | The chunk's symbol, same file first, then lowest id |
| Ranking.LookupChunkIdsForSymbols | internal/core/ranker.go:286-296 | The chunks of the symbols, for any counting over them |
| Ranking.BatchGetSymbolIdsForChunks | internal/storage/sqlite/metadata.go:704-744 | The same symbols by a join in batches |

## Left out

- Floating point: scores, cosine and square roots are over the reals; rounding, NaN and infinity in scores are
  not modelled, apart from the bit patterns that the sanitizer and the file format handle.
- Texts of chunks in the embedding run, progress reports and log output: a job is its chunk id.
- Request timeouts, health checks and back-off sleeps of the embedder: a call is an outcome, a wait may be cancelled.
- The queue path of the embedding worker (Submit, Run, processBatch): best effort, with nothing conserved.
- Interleaving of an embedding run with re-index jobs: the run is sequential over a fixed set of chunks, vectors are
  stored for chunks that are there. For the statuses a re-index is one step once its deletion has succeeded.
- SQL, FTS5, migrations and the Postgres and Qdrant backends: tables are finite maps, cascades follow the schema.
- Qualified target names, diff logs and parent links of the enrichment job: they decide nothing in the edge tables.
- A job whose file record is missing and a job type that is unknown: both return an error and change nothing.
- Ordering of concurrent readers and the store's mutexes: methods of the vector and session stores run one at a time.
- CRC32 is any function of the bytes: that the loader compares it is proved, which damage it detects is not claimed.
- tiktoken: the token count is any function of the text.
- mergeSmallChunks, sibling merging and the syntax-tree walk of the chunker: they need the parser.
- FilesystemFallback, fallback levels, HybridRank's weighted sum and the exponential recency formula: easy or
  about floating point.
- Texts are strings of bytes, one character for a byte, so that lengths are those of Go; runes matter only in `Utf8`.
- Ties: heaps, sorts and LIMIT 1 may order equal elements in any way; the contracts hold for each.
- WriterManagers.WriterManager.TrySend: states one pass under the lock, because a blocked Submit is a matter of
  several goroutines; blocking and waking are steps of the protocol, not statements of one method.
- DaemonWriter.CleanDrainProcessesAll: says nothing about a drain that never gets that far; when it cannot is
  `DrainClosesExactly`.
- SymbolGraph.FailedJobSound: takes a path to keep its language, as its extension decides it
  (internal/daemon/scanner.go:70).
- SymbolGraph.HistoryLeaves: takes the same of every job of the history.
- VectorStores.VectorStore.SaveToDisk: the temporary name is one that the directory does not have and not the
  path itself, which is what os.CreateTemp is for; other programs do not write to the directory meanwhile. The
  file is not synced before the rename, and what is on the disk after a power loss is not claimed.
- Ranking.BothScorersAgree: takes the per-name symbol list in id order, chunk ids that are not zero and store
  calls that succeed, because with failing calls the two scorers skip different things.
