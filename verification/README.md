# A verified model of the supply-chain analysis backend

This project models, in Dafny, the parts of the repository whose correctness depends on concurrency,
on an index that has to agree with the data it was built from, or on loops with arithmetic, and proves
what they promise. Nothing in it is compiled or executed; each statement holds for all inputs, or for
all runs.

- **Event log and resumable stream** (`EventLog.dfy`, `Sse.dfy`, `Encoder.dfy`, `Resume.dfy`,
  `Snapshot.dfy`).
  Transactions append numbered events under a row lock, commit or abort. The server polls the run row
  and then its events, as two separate reads. The connection may be cut at any character; the client
  splits what it gets into blocks, reconnects with `Last-Event-ID` and folds the events into the
  snapshot that the page shows. `Resume.World` puts writers, server, network and client into one step
  system. The wire format is the subset of sections 9.2.5 and 9.2.6 of the WHATWG HTML Standard that the
  code reads: blocks end at `\n\n` only.
- **Transactional outbox** (`Outbox.dfy`). Any number of dispatchers claim rows under a lease, send them
  and finish them, and may crash between any two steps. The same system holds the writers that commit a
  queued run together with its row.
- **Watchdog and ingestion lifecycle** (`Watchdog.dfy`). The sweeps over stalled work, and every
  interleaving of deliveries, sweeps, retries and cancellations of one ingestion task.
- **Chunking and lexical index** (`Chunking.dfy`, `Tokens.dfy`, `Index.dfy`, `Bm25.dfy`, `Lexical.dfy`).
  Text is normalised and cut into overlapping parents and children with recorded offsets; an ingestion
  replaces a document's chunks and term rows and may fail half way; BM25 is computed from the rows
  instead of the texts.
- **Ranking** (`Sums.dfy`, `Order.dfy`, `Fusion.dfy`, `Rerank.dfy`, `Search.dfy`). Reciprocal rank
  fusion, the reordering by a language model that is not trusted, and the parent text attached to each
  result.
- **Agent graph** (`AgentGraph.dfy`, `Executor.dfy`). Routing, parallel subagents, reducers, the
  synthesize/verify loop, the token stream, the SQL retry loop, and what is persisted at the end.
- **Reports** (`Report.dfy`, `Printer.dfy`, `PlainReport.dfy`). The Markdown printer, and the line loop
  that reads its text back for the PDF.

`Common.dfy` holds the shared Option and Result types and facts about sequences, `Decimal.dfy` the
printing and reading of event ids.

Objects that the code updates in place are classes or arrays here (`EventLog.EventStore`,
`Outbox.OutboxEvent`, `Watchdog.IngestionTask`, `Index.KnowledgeBase`, the result rows in `Search`), and
loops are methods with invariants. Each is proved against a specification function, and the lemmas prove
what the repository promises about those functions.

## What the proofs say about the code

Some promises hold only under a condition. Each of these has its exact condition below.

- An event whose JSON text contains U+2028 or U+2029 never reaches the client: the server prints these
  characters as they are, and the client's line pattern stops at them (`Encoder.EventArrives`,
  `Encoder.SeparatorDropsEvent`). Neither does one whose payload `JSON.parse` rejects, such as a NaN that
  `json.dumps` prints. Resumption is exactly-once for all other events, and without a gap exactly when all
  payloads parse and have no line separator (`Resume.ExactlyOnce`).
- `finish` reads an empty error text as success, so a send that fails with an exception without text
  completes a row that was never sent. Over all runs this is the only way to lose one
  (`Outbox.LostExactlyBySilentFailure`, `Outbox.LostRowFailedSilently`, `Outbox.SilentFailureLosesARow`).
- A dispatcher that outlives its lease can reopen a completed row (`Outbox.LateFinisherReopens`); without
  such dispatchers leases exclude each other (`Outbox.NoRowInTwoHands`, `Outbox.LeaseSafety`).
- A second sweep at the same time changes nothing, but asks again for the same retries if the queued
  timeout is zero or less (`Watchdog.SecondSweep`).
- A dead letter can be completed by a duplicate delivery that nobody asked for, since the worker does not
  look at the flag (`Watchdog.ExhaustedStaysOut`); and a sweep that overlaps other writes can leave a dead
  letter with attempts to spare (`Watchdog.OverlappingSweepInRuns`, `Watchdog.OverlappingSweepHappens`).
- A manual ingestion retry commits the task before it adds the outbox row, so the row can be lost. The
  sweep makes up for it: the first one after the queued timeout asks for the delivery, or makes a dead
  letter of a task without attempts (`Watchdog.RetryWithoutOutboxRow`).
- The recorded span of a child is one to the left of its text exactly when the parent's window began on a
  blank (`Chunking.NestedOffsets`).
- With statistics that lag behind the index a BM25 match counts against a chunk, exactly when the term
  occurs in more chunks than the statistics count (`Bm25.MatchHelpsExactly`); every chunk found scores
  above zero exactly when no term does (`Lexical.ScoresAboveZeroExactly`). As long as nothing is archived
  none does after a completed ingestion, and none ever does if the embedding service returns one vector
  for each text (`Lexical.FoundChunksScoreAboveZero`).
- A reranker answer that names an identifier twice lets rows that are not named overtake named ones
  (`Rerank.NamedFirstExactlyWithoutRepeats`).
- The second synthesis attempt never changes the outcome, because the verifier only looks at evidence
  that does not change between the attempts (`Executor.CompletedExactlyWithEvidence`). A question outside
  both routes completes exactly when its conversation thread already held evidence from an earlier
  question, as every completed one leaves it (`Executor.UnsupportedCompletesOnlyOnOldEvidence`,
  `Executor.UnsupportedCanFollow`, `Executor.UnsupportedCompletionHappens`).
- A report row reads back exactly when no cell contains a pipe (`Report.RowRoundTripExactly`). The repair
  of mis-decoded text before reading never changes a report (`Printer.ReportIsNotRepaired`).

## Model

| member | source | states |
|---|---|---|
| EventLog.EventStore.AppendEvent | backend/app/services/events.py:24-71 | allocates the next number under the row lock, adds the event under that number, and commits if asked; a caller that would have to wait changes nothing |
| EventLog.EventStore.CommitTxn | backend/app/services/events.py:56-59 | publishes everything the transaction drafted and releases its row locks |
| EventLog.EventStore.RollbackTxn | backend/app/services/events.py:39-44 | drops what the transaction drafted and leaves the committed log as it was |
| EventLog.ApplySound | backend/app/services/events.py:37-55 | the row lock at work: one writer a run, and its draft continues the committed log |
| EventLog.GaplessLog | backend/app/models.py:207-216 | after any interleaving of transactions, committed or aborted, the events of every run are numbered 1..n without a hole and n is the run's counter |
| EventLog.AppendOnly | backend/app/services/events.py:48-55 | no operation renumbers, replaces or removes a committed event |
| EventLog.CommitPublishes | backend/app/services/events.py:55-59 | a commit puts exactly the transaction's events behind the committed ones |
| EventLog.AllocatedIsStored | backend/app/services/events.py:37-55 | once a number is allocated, and whatever other transactions do until the commit, the log ends up with this event under this number |
| EventLog.AllocatesExactly | backend/app/services/events.py:37-46 | a number is allocated exactly if the transaction holds the run's row, or the run is committed and its row free; it is the one after all events that the transaction sees |
| EventLog.CreatedOnCommit | backend/app/models.py:207-216 | a new run is there, queued and without events, once its transaction commits |
| EventLog.StatusIsSetExactly | backend/app/agents/executor.py:86-90 | the status of a committed run is changed by a status update that finds its row unlocked, and by no other operation |
| EventLog.RollbackLeavesNoHole | backend/app/services/events.py:37-44 | however many events the aborted transaction had appended, the next allocation, by any transaction, gets the number that it allocated first |
| Sse.SplitAppend | frontend/src/services/sse.ts:26-28 | text that arrives later never changes the blocks already closed: splitting the carried rest with the new piece is splitting the whole text |
| Sse.SplitParts | frontend/src/services/sse.ts:26-29 | splitting loses nothing, and the carried rest holds no complete block |
| Sse.SplitClosed | frontend/src/services/sse.ts:27-29 | splitting after joining gives back the same blocks |
| Sse.JoinCloses | frontend/src/services/sse.ts:29-31 | joining the blocks and adding a final blank line closes every one of them |
| Sse.ReadPiece | frontend/src/services/sse.ts:26-31 | what one piece closes and emits is what the whole text gains by it |
| Sse.ReadSseResponse | frontend/src/services/sse.ts:17-35 | for every way of cutting the stream the returned text is the whole stream and the callbacks together get exactly the events of its complete blocks |
| Decimal.ParsePrintNat | backend/app/services/events.py:16-21 | a printed event number reads back as itself |
| Encoder.ParseEventBlock | frontend/src/services/sse.ts:3-15 | one encoded event reads back as that event if its payload parses and has no line separator in it, and as nothing otherwise |
| Encoder.HeartbeatIsSilent | backend/app/services/events.py:110-113 | a heartbeat is never read as an event |
| Encoder.EventArrives | backend/app/services/events.py:16-21 | an event reaches the client exactly when its payload parses and contains no line separator |
| Encoder.SeparatorDropsEvent | backend/app/services/events.py:16-21 | whatever else the client's parser accepts: an event with U+2028 in its payload that is printed and parses, and that the client never sees |
| Encoder.RoundTrip | backend/app/services/events.py:16-21 | a stream of encoded events with heartbeats anywhere reads back as its visible events, in order |
| Encoder.CutStream | frontend/src/services/sse.ts:17-35 | of a stream cut at any character the client has seen exactly the first whole frames |
| Resume.StopTestIsTerminalTest | backend/app/services/events.py:108-109 | the stop test's comparison with the counter never delays the end, because the run row is read before the events |
| Resume.YieldEvents | backend/app/services/events.py:105-107 | one round sends its events once each, in order, and leaves the cursor at the last |
| Resume.StreamEvents | backend/app/services/events.py:74-114 | a connection sends the log after the requested number without a gap or a repeat, and nothing while the log is shorter than that; it ends by itself only when the run is gone or terminal, and then it has sent every event of that reading |
| Resume.LastIdCuts | frontend/src/features/analysis/AnalysisRoute.tsx:168-171 | the last applied number marks a place in the log that loses no visible event |
| Resume.ServedResponse | frontend/src/features/analysis/AnalysisRoute.tsx:164-171 | one response, cut anywhere, gives the visible events of one stretch of the log and moves the number to the end of it |
| Resume.ApplyCalls | frontend/src/features/analysis/AnalysisRoute.tsx:168-171 | the callbacks apply every event once, in order, and the number follows the last event that has one |
| Resume.ResumeRunStream | frontend/src/features/analysis/AnalysisRoute.tsx:161-177 | at most four connections, each asking with the last number that the response before it held; exactly the events of the accepted responses are applied, in order, and these are the visible events of one contiguous stretch of the log, up to its end if the last response carries the rest; a refused connection ends the loop at once, a settled status stops it, and four unsettled attempts give up |
| Resume.NextConsistent | backend/app/services/events.py:74-114 | every writer, server, network and reconnect step keeps the client's applied events in agreement with the log |
| Resume.PlayConsistent | frontend/src/features/analysis/AnalysisRoute.tsx:161-177 | so it holds after every run of the whole system |
| Resume.ExactlyOnce | frontend/src/features/analysis/AnalysisRoute.tsx:161-177 | over any number of connections, each cut anywhere, the applied events are the visible events of the log up to the last number, each once and in order; they are the whole prefix exactly when all of those events are visible |
| Resume.RoundProgress | backend/app/services/events.py:81-109 | progress of the server: from every consistent state in which a round is due, and whatever is written and delivered between its two reads, the round brings the response to the end of the log, and ends it exactly if the first read found the run missing, completed, failed, cancelled or rejected |
| Resume.RoundDelivers | frontend/src/features/analysis/AnalysisRoute.tsx:164-171 | progress of the client: once the rest of that round's text has arrived it has applied every visible event of the log |
| Resume.CatchesUp | frontend/src/features/analysis/AnalysisRoute.tsx:161-177 | from every state that any run reaches, one more connection with one round gives the client every visible event of the log |
| Resume.WritesTakeEffect | backend/app/services/events.py:24-71 | the log of the whole system is the one that the writers' operations leave |
| Resume.ClosedResponseIsComplete | backend/app/services/events.py:105-109 | over every run: when a closed response is read to its end, some earlier first read found the run missing or ended, and the client has applied everything visible that was committed at that read |
| Snapshot.MergeStages | frontend/src/features/analysis/analysis-stream.ts:10-32 | an event keeps the identity and order of the stages and moves exactly the stages it names |
| Snapshot.SnapshotFold | frontend/src/features/analysis/analysis-stream.ts:9-32 | for any event list: stages keep their identity and order, each status is that of the stage's own events, the activity list is the last 8 of the whole history, and a run id once set is never lost |
| Snapshot.SnapshotByName | frontend/src/features/analysis/analysis-stream.ts:13-32 | by the names and payloads of the events alone: the status of each stage, and run id, SQL draft, citation and row counts, chart flag, result and error, each from the last event that sets it |
| Snapshot.NothingRunsAfterTheEnd | frontend/src/features/analysis/analysis-stream.ts:29-30 | right after a completed, failed or cancelled event no stage is running |
| Snapshot.LiveSnapshotIsOneFold | frontend/src/features/analysis/analysis-stream.ts:13-32 | however often the connection broke, the live snapshot is one fold over the visible events of the log's prefix |
| Outbox.OutboxEvent.Finish | backend/scripts/worker.py:126-152 | the new row: pending again with a backoff of at most 60 seconds after an error, completed otherwise |
| Outbox.FinishExactly | backend/scripts/worker.py:133-139 | without an error text completed at once; with one pending again after 5 seconds for each attempt, at least 5 and at most 60, and the text is kept |
| Outbox.RoutedExactly | backend/scripts/worker.py:96-101 | a row is dispatched exactly if its event and aggregate types are one of the three pairs that the writers commit, each to its own task |
| Outbox.VerdictExactly | backend/scripts/worker.py:155-163 | the error text has at most 500 characters, is the broker's own for a row of those three kinds, and is empty exactly if such a row is accepted or turned down without a word |
| Outbox.ClaimRows | backend/scripts/worker.py:103-124 | every claimed row is processing, counts one more attempt and is leased for 30 seconds |
| Outbox.DispatchRows | backend/scripts/worker.py:154-164 | exactly the rows of the three kinds that the broker accepts are sent, once each and in order, to the task of their kind with their aggregate's identifier, and completed; every row is finished with the outcome of its own send |
| Outbox.RunConsistent | backend/scripts/worker.py:103-164 | in every run each row that is not completed becomes available within a minute, every live claim has the ticket of a recorded attempt, and no ticket is held twice |
| Outbox.AttemptsCountClaims | backend/scripts/worker.py:118-123 | attempts equals the number of claims, and a row is sent at most once a claim |
| Outbox.SendableExactly | backend/scripts/worker.py:156-160 | a row whose turn it is can be sent exactly if it is of one of the three kinds |
| Outbox.SentIsCompleted | backend/scripts/worker.py:160-161 | and when the broker accepts it the dispatcher can finish it, and it is completed |
| Outbox.OnlyKnownKindsAreSent | backend/scripts/worker.py:156-160 | in every run each sent row is of one of the three kinds |
| Outbox.NothingQueuedIsLost | backend/app/api.py:4478-4506 | for any dispatchers, crashes and clock ticks: a row that is not completed is claimable again within 60 seconds, every queued run has its row, and a completed row was sent, unless a send of that very row failed without an error text |
| Outbox.LostExactlyBySilentFailure | backend/scripts/worker.py:126-164 | over every run and for every row: it ends completed and never sent if and only if some step finishes a failed send of it whose error text is empty, before any send of it succeeded, and no later step sends it or puts it back |
| Outbox.LostRowFailedSilently | backend/scripts/worker.py:162-163 | in every run a lost row has had a failed send of its own whose exception prints as the empty text |
| Outbox.CrashIsSurvived | backend/scripts/worker.py:103-164 | in every run, whatever a dispatcher had in hand when it crashed, nothing but its claims is gone, and a minute later every row that is not completed can be claimed again |
| Outbox.SilentFailureLosesARow | backend/scripts/worker.py:162-163 | a run in which that happens |
| Outbox.LeavesCompleted | backend/scripts/worker.py:133-140 | a completed row leaves completed exactly when a claim of it is finished with an error |
| Outbox.NextExclusive | backend/scripts/worker.py:103-124 | if nobody acts after the end of a lease, each step keeps live claims exclusive |
| Outbox.NoRowInTwoHands | backend/scripts/worker.py:103-124 | then no run puts two live claims on one row |
| Outbox.LeaseSafety | backend/scripts/worker.py:118-138 | and then a completed row has no live claim and stays completed |
| Outbox.LateFinisherReopens | backend/scripts/worker.py:130-140 | without that condition a run in which a late finisher puts a completed row back |
| Outbox.ClaimProgress | backend/scripts/worker.py:105-113 | a claim takes a claimable row, or takes fifty of the older claimable rows ahead of it and leaves it claimable |
| Watchdog.SweepOne | backend/app/services/task_watchdog.py:57-87 | one stalled ingestion task is requeued and retried if it has an attempt left and dead-lettered otherwise, with its document, and leaves one audit row; any other task is untouched |
| Watchdog.StalledExactly | backend/app/services/task_watchdog.py:57-62 | a queued task is stalled when the queued timeout is over since its last change, one being processed when the running timeout is, and no other |
| Watchdog.JobStalledExactly | backend/app/services/task_watchdog.py:94-100 | in the other tables the queued timeout counts from the creation and the running timeout from the start, or from the creation if no start is known |
| Watchdog.SweepIngestion | backend/app/services/task_watchdog.py:52-87 | the whole table: rows, retries, audit rows and documents, and nothing else |
| Watchdog.SweepJobs | backend/app/services/task_watchdog.py:89-141 | no sync, refresh, export or analysis row is still in progress past its cutoff, each stalled row gets its error text and, for an analysis run, the failure in its result, and no work is repeated |
| Watchdog.ReconcileStalledTasks | backend/app/services/task_watchdog.py:35-144 | the three sweeps together: every row, every document, the retries and the audit rows |
| Watchdog.RetriesAreRequeued | backend/app/services/task_watchdog.py:63-68 | the retries are exactly the stalled tasks with an attempt left, each once |
| Watchdog.OneAuditPerChange | backend/app/services/task_watchdog.py:78-87 | the audit rows name exactly the tasks that were changed and what was done to them, each task once |
| Watchdog.OneAuditPerStalledJob | backend/app/services/task_watchdog.py:105-114 | and in the other tables exactly the stalled rows, each once |
| Watchdog.SecondSweep | backend/app/services/task_watchdog.py:57-68 | a second sweep of the ingestion table at the same time changes no row and dead-letters none; with a positive queued timeout it asks for no retry, otherwise it repeats exactly the retries of the first; it writes no audit row exactly when the timeout is positive or nothing was requeued |
| Watchdog.SecondJobSweep | backend/app/services/task_watchdog.py:89-141 | a second sweep of the other tables at the same time changes no row and writes no audit row |
| Watchdog.DeadLetterInvariant | backend/app/services/ingestion.py:142-151 | across all interleavings a dead letter is a failed task that has used up its attempts |
| Watchdog.ExhaustedStaysOut | backend/app/services/ingestion.py:15-19 | a dead letter stays one throughout a run exactly if the run has no delivery that succeeds, no retry of an available document that is queued or succeeds inline, and no administrator's reset |
| Watchdog.TakenBackExactly | backend/app/services/ingestion.py:139-151 | those are exactly the operations that clear the flag of a dead letter |
| Watchdog.OperationsExactly | backend/app/services/ingestion.py:15-151 | what each delivery, retry, cancellation and reset does to status, attempts and dead-letter flag, and what it leaves |
| Watchdog.AttemptsCountDeliveries | backend/app/services/ingestion.py:19 | in every run the attempts are the deliveries since the last reset of a dead letter; sweeps, cancellations and queued retries are none |
| Watchdog.NeverCommittedAsProcessing | backend/app/services/ingestion.py:18-23 | no list of committed operations leaves a task processing, since that status is only flushed and is overwritten before the commit |
| Watchdog.OverlappingSweep | backend/app/api.py:3330-3331 | when any operations are committed between a sweep's read and its write, the dead-letter invariant fails exactly if the sweep dead-letters a task that has attempts again, or requeues a dead letter that it read while processing |
| Watchdog.OverlappingSweepInRuns | backend/app/api.py:3330-3331 | a row that committed operations have led to is never read while processing, so requeueing never breaks the invariant and it fails exactly if the sweep dead-letters a task that has attempts again |
| Watchdog.OverlappingSweepHappens | backend/app/api.py:3330-3331 | a run of a new task in which that happens: three deliveries fail, a retry queues it again, a sweep reads it, a fourth delivery fails, an administrator resets it, the sweep writes |
| Watchdog.RetryWithoutOutboxRow | backend/app/api.py:3194-3203 | whatever led to the task: after a retry whose outbox row is never written, sweeps before the queued timeout leave the task queued, and the first one at or after it asks for the delivery exactly if an attempt is left and makes it a dead letter otherwise |
| Watchdog.StampIsLastChange | backend/app/models.py:410-412 | in every run the time stamp of a row is that of the last operation that changed it |
| Watchdog.NothingWaitsUnseen | backend/app/services/task_watchdog.py:52-62 | after every run that ends with a sweep under positive timeouts, a task still in progress was last changed by an operation younger than the timeout of its status, or is untouched and itself that young |
| Chunking.NormalizeText | backend/app/services/knowledge.py:49 | normalising keeps the words and their order and leaves single blanks only |
| Chunking.NormalizedIsFixed | backend/app/services/knowledge.py:49 | normalising twice is normalising once, so cutting a parent again does not move characters |
| Chunking.ChunkText | backend/app/services/knowledge.py:48-64 | fails exactly for an overlap that is not smaller than the size, and otherwise gives the windows of the normalised text |
| Chunking.WindowsWellCut | backend/app/services/knowledge.py:54-64 | the first window starts at 0, the last ends at the end, each starts the overlap before the end of the one before, and no piece is empty |
| Chunking.WindowCount | backend/app/services/knowledge.py:54-64 | the number of windows is one, or one more than the rest divided by the step and rounded up |
| Chunking.BuildPieces | backend/app/services/ingestion.py:36-62 | the nested loops give every child of every parent, in order |
| Chunking.ParentsOk | backend/app/services/ingestion.py:36-39 | the parents are a well-formed cut of the normalised document |
| Chunking.ChildPieces | backend/app/services/ingestion.py:52-62 | the children of a parent are a well-formed cut of its text, at most 5 |
| Chunking.NestedOffsets | backend/app/services/ingestion.py:55-61 | each child's text is the stripped document text at its recorded span, moved by one exactly when the parent's window began on a blank; the span stays inside the parent's |
| Chunking.EveryCharacterIsInAChild | backend/app/services/ingestion.py:36-62 | every character that is not a blank lies in some child |
| Chunking.ChildOrdinalsIncrease | backend/app/services/ingestion.py:88-97 | the numbers parent * 10000 + child increase strictly over the document |
| Tokens.Tokenize | backend/app/rag/ranking.py:6-14 | the loops give the Latin runs, then for every Chinese group its characters and its pairs, cut to 160 characters |
| Tokens.RunsSplit | backend/app/rag/ranking.py:8-9 | a character outside the class separates: the runs of the whole are the runs of the two sides |
| Tokens.WholeRun | backend/app/rag/ranking.py:8-9 | a run is taken whole; with RunsSplit this determines the runs of every text |
| Tokens.TokenOfWord | backend/app/rag/ranking.py:6-14 | a word of lower-case letters, digits and underscores is one token, cut to 160 characters |
| Tokens.TokensOfGroup | backend/app/rag/ranking.py:10-13 | a Chinese group gives each of its characters and then each pair of neighbours |
| Tokens.TokensAddUp | backend/app/rag/ranking.py:6-19 | the tokens of two texts joined by any separator are the tokens of both, so term frequencies add up |
| Tokens.DocumentLength | backend/app/rag/ranking.py:17-19 | the document length is the number of Latin runs plus twice the Chinese characters minus the Chinese groups |
| Tokens.FrequenciesAddUp | backend/app/rag/ranking.py:17-19 | the counts of the distinct terms add up to the number of tokens |
| Index.KnowledgeBase.ProcessIngestion | backend/app/services/ingestion.py:15-155 | the whole new index after a call that completes, fails before touching it, or fails half way; the statistics change only when it completes, and then count the children that are not archived |
| Index.IngestedOk | backend/app/services/ingestion.py:30-111 | each of those outcomes keeps the term rows in agreement with the texts |
| Index.IngestedContents | backend/app/services/ingestion.py:30-111 | afterwards the document's chunks are exactly the new parents and the children written, all of them exactly when the call completes; other documents keep theirs |
| Index.StoredSpans | backend/app/services/ingestion.py:36-97 | every child that is stored names a stored parent of its document, is numbered below it, and its text is the stripped document text at its stored span, moved by one if the parent's window begins on a blank |
| Index.PlayOk | backend/app/services/ingestion.py:30-111 | so the index agrees with the texts after every sequence of ingestions |
| Index.IndexAgreesWithTexts | backend/app/services/ingestion.py:86-111 | in every reachable state: no row outlives its chunk, each row has its term's true count and the chunk's length, each term of each child has exactly one row, and a child's frequencies add up to its length |
| Index.CompletionCountsExactly | backend/app/services/ingestion.py:113-141 | after any run whose last call completes the statistics count exactly the children of the index, whatever failed calls left before, as long as nothing is archived |
| Index.ArchivedAreNotCounted | backend/app/services/ingestion.py:113-124 | a completing call counts all children but those of archived documents |
| Index.StatisticsCountAll | backend/app/services/llm.py:58-63 | with one vector for each text, as the client checks, and nothing archived, the statistics count at least the children of the index after every run |
| Bm25.MatchHelpsExactly | backend/app/rag/ranking.py:32-39 | a match raises the score exactly when the term occurs in no more chunks than the statistics count, and lowers it otherwise |
| Bm25.MoreOccurrencesScoreHigher | backend/app/rag/ranking.py:38-39 | more occurrences in a chunk of the same length score higher |
| Bm25.LongerChunksScoreLower | backend/app/rag/ranking.py:38-39 | the same occurrences in a longer chunk score lower |
| Bm25.RarerTermsScoreHigher | backend/app/rag/ranking.py:35-37 | a rarer term scores higher |
| Bm25.ScoreEquation | backend/app/rag/ranking.py:32-39 | the equation between frequency, length, positive average and score that determines the score |
| Bm25.AtTheAverage | backend/app/rag/ranking.py:38-39 | in a chunk of average length a match has the factor tf * 2.5 / (tf + 1.5) |
| Bm25.AtNoLength | backend/app/rag/ranking.py:38-39 | at length 0 it has the factor tf * 2.5 / (tf + 0.375) |
| Bm25.OnlyTheRatioCounts | backend/app/rag/ranking.py:38 | chunks with the same ratio of length and average score the same |
| Bm25.LongerAverageScoresHigher | backend/app/rag/ranking.py:34-39 | the same match in the same chunk scores higher when the average is larger |
| Bm25.ScoreEdges | backend/app/rag/ranking.py:32-34 | an average of zero counts as one; nothing scores without an occurrence, a containing chunk or statistics |
| Lexical.Bm25Rank | backend/app/rag/retrieval.py:217-260 | from the index rows, in whatever order they are found, the scores are those of scoring every child's text directly, and the ranking is the top `limit` by (-score, id) |
| Lexical.ScoresAreDirect | backend/app/rag/retrieval.py:246-258 | the accumulated dictionary has an entry for exactly the children with a query term, with the direct score |
| Lexical.FrequencyIsContaining | backend/app/rag/retrieval.py:246-248 | the document frequency counted over the rows is the number of children whose text has the term |
| Lexical.ScoresAboveZeroExactly | backend/app/rag/retrieval.py:246-258 | every chunk that any query finds scores above zero exactly when no term occurs in more children than the statistics count |
| Lexical.FoundChunksScoreAboveZero | backend/app/services/ingestion.py:113-141 | so it is, with nothing archived, after every run whose last call completes, and after every run at all with one vector for each text |
| Fusion.ReciprocalRankFusion | backend/app/rag/ranking.py:42-47 | each identifier once, with the sum of its 1 / (k + rank), in strict (-score, id) order |
| Fusion.FusionDistinct | backend/app/rag/ranking.py:47 | no identifier comes twice |
| Fusion.ScoreOfPlace | backend/app/rag/ranking.py:44-46 | a ranking without repeats adds 1 / (k + rank), ranks from 1, to the identifiers in it, and nothing to others |
| Fusion.FusionIgnoresRankingOrder | backend/app/rag/retrieval.py:109-111 | permuting the rankings does not change the fused list |
| Fusion.FusionConservesMass | backend/app/rag/ranking.py:44-46 | the fused scores add up to all contributions |
| Fusion.HigherEverywhereScoresHigher | backend/app/rag/ranking.py:42-47 | an identifier that stands at least as high wherever another one stands never scores lower |
| Order.RankingUnique | backend/app/rag/ranking.py:47 | a score table has only one ranking, whatever order its keys were inserted in |
| Order.StrLessMeans | backend/app/rag/ranking.py:47 | identifiers compare by their first different characters, a proper prefix comes first |
| Rerank.SortSpec | backend/app/rag/retrieval.py:133-134 | the sorted rows are a permutation, ordered by key, and stable |
| Rerank.StableUnique | backend/app/rag/retrieval.py:134 | those facts determine the result |
| Rerank.RerankPermutes | backend/app/rag/retrieval.py:127-136 | whatever the model answers, or if it fails, no row is added or lost |
| Rerank.RerankFollowsAnswer | backend/app/rag/retrieval.py:130-134 | an answer without repeats comes first, in its order, and the rest keep the fused order |
| Rerank.NamedFirstExactlyWithoutRepeats | backend/app/rag/retrieval.py:133-134 | named rows come first for all candidate lists exactly when the answer has no repeats |
| Rerank.RerankSorts | backend/app/rag/retrieval.py:133-134 | for any answer, with repeats or without, the rows are sorted stably by the last place that its first candidate names give them, unnamed ones by the number of different names |
| Rerank.AllowedSpec | backend/app/services/llm.py:168-172 | what is left of the model's answer names candidates only, at most `limit` of them |
| Search.FinishSearch | backend/app/rag/retrieval.py:109-150 | the rows returned, with their texts: of the first existing fused candidates, those that a distinct answer names come first in its order and the others follow in the fused order, cut to the limit; of an answer with foreign or too many names the first candidate names count; after a failed call the fused order stays |
| Search.MapParentContext | backend/app/rag/retrieval.py:298-315 | every row gets the text of its parent if there is one and else its own, and nothing else changes |
| Search.ResultsAreCandidates | backend/app/rag/retrieval.py:262-296 | only fused candidates that exist come back, none twice, and no more than asked for |
| Search.AllCandidatesComeBack | backend/app/rag/retrieval.py:127-137 | a search that asks for all candidates gets all of them, whatever the model answers |
| Search.ContextIsTheParents | backend/app/rag/retrieval.py:298-315 | in every reachable index the context of a child is the text of the parent it was cut from, never the fallback |
| AgentGraph.StepKeeps | backend/app/agents/graph.py:118-170 | each node keeps the counts of attempts, rejections and acceptances in step with the trace, and uses up a bounded number of steps |
| AgentGraph.RunsEnd | backend/app/agents/graph.py:174-187 | every run ends within ten steps, and only at the end node is there no next step |
| AgentGraph.EndOfRun | backend/app/agents/graph.py:126-170 | at the end the answer was written once or twice, the counter equals the rejections, and completed holds exactly when verified does, whatever the approval gate decided |
| AgentGraph.EverySubagentOnce | backend/app/agents/graph.py:70-116 | the reducers lose and repeat nothing: when the synthesis runs there is exactly one own entry for each subagent of the route: data, knowledge, both, or none |
| AgentGraph.RunIsRecorded | backend/app/agents/state.py:24-44 | after any run on any thread the results and citations are those of the thread and then those of the run, in order, and route, answer, verdict and the demand for approval are the last ones given |
| AgentGraph.VerdictLeads | backend/app/agents/graph.py:147-152 | a first rejection goes back to the synthesis, and otherwise the answer's demand decides between the approval gate and the end |
| AgentGraph.BranchOrderDoesNotMatter | backend/app/agents/state.py:24-31 | the two subagents of the hybrid route may finish in either order: the synthesis looks up the same findings |
| Executor.CompletedExactlyWithEvidence | backend/app/agents/executor.py:197-274 | an executor run completes exactly when there is a row or a citation, never waits for approval, and writes the answer once with evidence and twice without |
| Executor.WaitsAtTheGate | backend/app/agents/executor.py:309-311 | a run waits for approval exactly where the graph stops at the gate, and no run of the executor does |
| Executor.CompletionIsGrounded | backend/app/agents/executor.py:311-318 | completed is stored exactly with evidence and no cancellation, cancelled exactly with both, failed exactly without evidence; and a completed run has a non-empty answer that carries the evidence |
| Executor.CompletesByItsFindings | backend/app/agents/executor.py:198-215 | on a thread without results a question completes exactly if its data subagent found a row or its knowledge subagent a citation |
| Executor.EvidenceIsTheFirst | backend/app/agents/executor.py:198-215 | what the synthesis looks up is the first entry of the whole thread, so an earlier question's result hides this one's |
| Executor.UnsupportedCompletesOnlyOnOldEvidence | backend/app/agents/graph.py:89-91 | an unsupported question completes exactly when its thread held evidence before; on a fresh thread never |
| Executor.UnsupportedCanComplete | backend/app/agents/executor.py:198-215 | on every thread that holds evidence from before, an unsupported question has a run that completes |
| Executor.UnsupportedCanFollow | backend/app/agents/executor.py:309 | so it has one after every question that completed |
| Executor.UnsupportedCompletionHappens | backend/app/agents/executor.py:309 | on a new thread: a data question that completes, and an unsupported one that completes on the state it left |
| Executor.StreamAnswer | backend/app/agents/executor.py:229-258 | the emitted pieces are the streamed text cut at 40 characters; a broken stream holds back a shorter rest and the planned answer takes over; the direct answer is never empty |
| Executor.RunDataSubagent | backend/app/agents/executor.py:367-404 | two attempts at most, the second told why the first was turned down; only SQL that passed the guard runs, and the insight belongs to the plan that ran |
| Report.RowRoundTripExactly | backend/app/services/reports.py:45-51 | a printed row reads back as its stripped cells exactly when no cell has a pipe |
| Report.ReadLines | backend/app/services/reports.py:35-80 | the line loop gives the blocks of the text |
| Report.ReadTable | backend/app/services/reports.py:44-52 | the inner loop takes the header, skips one line and takes all rows |
| Report.EveryLineTakenOnce | backend/app/services/reports.py:38-80 | each block is what the reader makes of the lines from the place where the blocks before it end, and at the end no line is left |
| Report.BlocksSplit | backend/app/services/reports.py:44-52 | reading can be cut before any line that does not start with a pipe |
| Printer.RenderMarkdown | backend/app/services/reports.py:91-123 | the loops print the report's lines |
| Printer.LinesSplit | backend/app/services/reports.py:36 | text that ends in a line feed can be split into lines on its own |
| Printer.MarkdownParts | backend/app/services/reports.py:107-123 | the stripped report is its front, its table and its end, unchanged around the table |
| Printer.ReportIsNotRepaired | backend/app/services/reports.py:4-11 | the repair of mis-decoded text changes no printed report, because every report has a character that is not Latin-1 |
| Printer.PrintedTableIsRead | backend/app/services/reports.py:107-123 | in every report, whatever else it says, a printed table of cells without pipes and line breaks is read as exactly one table: the header and the first 50 rows, stripped and rectangular, with the rest read as if it stood alone |
| PlainReport.ReportIsRead | backend/app/services/reports.py:82-123 | a whole report without special characters reads back as what it was printed from: title, question without its stars, conclusion, the lists of facts, risks and recommendations each under its own heading, SQL, table and evidence, in this order and nothing else |

## Left out

- Bytes: network pieces are cut between characters, so UTF-8 decoding by `TextDecoder`, a response without a body and network errors that throw are not modelled.
- JSON: a payload is its printed text and a predicate says which texts the client parses; event ids are natural numbers, so JavaScript's number precision is not modelled.
- Redis notifications, Celery itself, HTTP status codes other than the one the client checks, and the timing of polls and retries.
- Transactions are atomic and the row lock is exclusive; only `Watchdog.OverlappingSweep` looks at reads and writes that overlap.
- Tenant filters and row-level security: each model is about one tenant, and the index about one knowledge base.
- Outbox.OutboxEvent.Finish: the identifiers of broker tasks that `finish` copies to the domain rows are not modelled.
- Outbox.DispatchRows: a `finish` that itself raises is a step of the system (`FinishBreaks`), not a case of this method.
- Outbox.ClaimRows: the query is a condition on the system's claim step (`Answers`), and `skip_locked` is modelled by claims that take effect one after the other.
- A manual ingestion retry commits before it adds its outbox row (`backend/app/api.py:3194-3203`), so `Outbox.NothingQueuedIsLost` is about analysis runs only; what becomes of a retry without its row is `Watchdog.RetryWithoutOutboxRow`.
- Watchdog.StampIsLastChange: the clocks of the database and of the workers are taken to be one, and columns that the model does not have, such as the broker's task identifier, are taken not to be written on their own.
- Resume.ResumeRunStream: the waits between connections are not modelled, and the token is taken to be valid.
- Snapshot.SnapshotByName: the wording of the activity lines and of the stage details is given by the model's own tables; no statement repeats it.
- Snapshot.SnapshotFold: the printing of numbers in detail texts (`toFixed`, `Number`) is not modelled; these texts are taken from the event data as strings.
- Index.KnowledgeBase.ProcessIngestion: the average document length is the database's own aggregate and is taken as given; task and document status are in `Watchdog`, embeddings are only counted, and document metadata in a chunk's location is not modelled.
- Index.PlayOk: chunk identifiers are assumed to be new, as generated identifiers are; a database error inside a flush rolls everything back and so is no step.
- Tokens.Tokenize: lower-casing is a parameter.
- Lexical.Bm25Rank: the rounding of floating-point numbers is not modelled; scores are real numbers, and the logarithm is a parameter that is zero at 1 and increasing where a result needs it.
- Fusion.ReciprocalRankFusion: `k` is a natural number; a negative `k` can divide by zero.
- Dense vector search, query rewriting and the external rerank endpoint.
- AgentGraph.RunsEnd: a subagent or a model call that raises ends the run as failed and is not a step; retry targets are those the graph has edges for.
- The resumption of a run after an approval decision, and the `retry_analysis` endpoint.
- Executor.RunDataSubagent: the SQL guard is a parameter; the chart call and the conversion of cell values are not modelled.
- Printer.RenderMarkdown: cell values and citations are given as printed strings, and the fallback texts for an empty insight are chosen before.
- Report.ReadLines: drawing, fonts and XML escaping are not modelled.
- Terminal run states are not absorbing in the code (`execute` sets `running` and a failure overwrites `cancelled`), so no such claim is made.
- Invitations, document versions, dashboards, memory and evaluation: separate services with simple state.
