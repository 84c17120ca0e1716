# nv-ingest: verified models of its stage protocol and its loops

nv-ingest moves documents through a pipeline of stages. Most of what can go wrong in it lies in the protocol of one
kind of stage, which shares work between threads and worker processes, and in a handful of loops around it: the sink
that cuts results into fragments for a message broker, the sink that batches rows for a vector database, the text
extraction from slides, the client that submits jobs, and some smaller pure transformations. This project models these
in Dafny and proves what they keep.

`dafny verify dfyconfig.toml` checks all of it.

## Parts

- **Control messages** (`ControlMessages.dfy`): the task table and metadata of a message, and what a failed message is.
- **The multiprocessing stage** (`StageModel`, `StageInvariant`, `StageSafety`, `StageDrain`, `StageTheorems`,
  `StageNodes`, `StageLoops`, `StageOutcome`, `StageQueues`): N engines share one ledger; each has an upstream thread, a child thread and a parent
  thread joined by two queues of capacity one, and the stage has a pass-through queue, a reconstruct node and a merge
  node. Every thread action is a step, so that a run is an interleaving, and the theorems hold in every run for every N.
  `StageNodes` has the node functions and the thread loops with real message objects, and `StageLoops` ties the loops to
  the steps of a run. `StageOutcome` says what leaves the stage in terms of the message that came alone, and
  `StageQueues` in which order.
- **The broker sink** (`Fragmentation`, `Publishing`, `PushOutcome`, `Fetching`): greedy fragmentation, numbering of fragments,
  publishing under retries against a broker that may fail, refuse or repeat at any submit, and fetching the fragments
  again.
- **The vector-database sink** (`VdbSink`, `VdbDue`, `VdbNodes`, `BulkIngest`): the accumulators with fallible inserts, and the
  polling loop that removes tasks from the list it iterates over.
- **Slides** (`PptxText`, `DeckText`, `MarkdownEscape`, `ShapeGroups`): the text loop with its flush policies, the two-pass Markdown
  escaper, and the flattening of shape groups.
- **The client** (`ClientModel`, `ClientTheorems`, `ClientNodes`): job states, task lists and specifications over any
  interleaving of calls and worker turns; the operations themselves as methods of a class.
- **Smaller parts**: `TextSplitter` (overlapping token windows), `Embeddings` (select, embed in batches, concatenate),
  `MergeDict` (merging of nested configurations), `TraceId` (trace id to job id and back), `StatusPolling` and
  `StatusOwnership` (the status request of a conversion).

Foreign services appear as scripts or functions: what the n-th submit comes to and how many copies it leaves, the
database's answer to the n-th insert, the embedding service's answer to a batch, the worker's outcome for a work package.
A JSON text is taken as ASCII, of `sys.getsizeof` 49 plus its length. Times are integers.

The stage assumes that there is no cancellation, that upstream never calls `on_error` (its event carries no package id,
so that the reconstruct node could not pop the ledger for it), and that a fresh uuid is not in the ledger.

## What turned out to differ from what one would expect

- The task filter looks for any task of a kind with acceptable properties, but the worker is handed the properties of
  the first of the kind, whether the filter would accept them or not (`StageTheorems.WorkerGetsFirstTask`;
  `WorkerGetsRejectedProps` is a run in which it would not).
- A message can come out failed with its new payload: with trace tagging on, a timestamp handed back by the worker is
  set after the payload and can raise (`StageTheorems.FailedWithNewPayloadIff`; `LateSpoilRun` is such a run). It takes
  a worker function that hands back something other than a time; the repository's own hand back times only.
- A push that returns has put the whole list on the channel only if the broker has taken every submit of its last
  attempt once. The simple client answers for a broker that has refused a message, and that answer is not looked at
  (`Publishing.NormalReturnIff`, `RefusalLosesFragment`). The Redis client raises errors that are not retried: a retry
  needs a client that raises ValueError, as the push's documentation has it.
- After a publish that was retried, with a broker that takes each submit that returns once and none that raises, the
  first fetch restores the result exactly if the broken attempts left nothing
  (`Publishing.RetryLeftoversSpoilFetch`, `RetrySpoilsFetch`).
- A failed push is answered by a failure record only for a message that came with a data frame
  (`Publishing.RecordNeedsDataFrame`, `NoRecordWithoutDataFrame`).
- A split task is validated only in the values it gives: with a chunk size up to 150 and no overlap of its own, the
  default overlap of 150 makes the split fail or come out empty (`TextSplitter.SplitAsConfigured`).
- The comma is among the characters the Markdown escaper escapes, because `+-.` in its character class is a range.
- A job counts as submitted after any answer of the message client. Only an answer with an id says that the broker has
  the job (`ClientTheorems.SubmittedWithIdIsReceived`, `SubmittedWithoutIdSaysNothing`). The client hands every job over
  at most once, but the message client retries inside (`ReceivedAtMostOnceIff`, `JobArrivesTwice`). Using one job specification for two
  jobs lets the second go out empty, lets the first be fetched under the second's id, and lets tasks into a job already
  sent; the exact conditions are `SentWithContentIff`, `FetchesItsOwnIff` and `TasksChangeIff`.
- The files of a conversion share one id and one channel, so that a file is given the next result that has arrived,
  whichever file that is of (`StatusOwnership.ResultsComeFromPositions`, `OwnResultsIff`): files get each other's
  results if these arrive in another order (`FilesGetEachOthersResult`). Arriving in the order of the files is not
  enough either. A poll that breaks, or cannot write its cache, loses what it has popped (`StatusPolling.PollKeepsIff`),
  and the next result then goes to the wrong file (`StatusOwnership.LostResultShiftsOthers`). In-order arrival suffices
  exactly as long as no poll has lost anything before the last one that gives something (`OwnResultsInOrderIff`, for
  results published in one go and fetches that do not break inside one). The status of a conversion without jobs, also
  of an unknown one, is "completed".
- Merging three layers of configuration can depend on the grouping, in its result and in whether it fails at all: when
  an empty dictionary of the middle one hides what the first has, or when the last replaces what the first two clash in
  (`MergeDict.GroupingsAgreeIff`, `GroupingCanMatter`, `GroupingCanFail`).

## Model

| member | source | states |
|---|---|---|
| ControlMessages.FilterLooksFurther | src/nv_ingest/util/flow_control/filter_by_task.py:43-127 | For a message the filter lets in there is a first task of the kind, which removal takes; if the filter rejects it, it has accepted one behind it. |
| ControlMessages.FilterCanDisagreeWithRemoval | api/src/nv_ingest_api/primitives/ingest_control_message.py:15-52 | A message with a pdf task before a docx task passes the docx filter and loses the pdf task. |
| ControlMessages.RemoveTaskByType | api/src/nv_ingest_api/primitives/ingest_control_message.py:15-52 | Removes the first task of a type in place and returns its properties; changes nothing if there is none. |
| ControlMessages.IngestControlMessage.AddTask | api/src/nv_ingest_api/primitives/ingest_control_message.py:71-82 | A task is appended exactly if its id is new; otherwise nothing changes. |
| ControlMessages.IngestControlMessage.RemoveTask | api/src/nv_ingest_api/primitives/ingest_control_message.py:96-107 | The task with the id is removed and returned, the others stay in order. |
| StageTheorems.Conservation | src/nv_ingest/stages/multiprocessing_stage.py:58-110 | In every interleaving of N engines each message offered is in exactly one place, and the ledger's keys are exactly the ids of the packages in flight, one package each. |
| StageTheorems.ReconstructNeverMisses | src/nv_ingest/stages/multiprocessing_stage.py:398-421 | The reconstruct node always finds its package's key in the ledger. |
| StageTheorems.OrderAndCompletion | src/nv_ingest/stages/multiprocessing_stage.py:334-367 | Each engine hands packages to the subscriber in the order accepted; at its first sub.on_completed all have been handed on, once, and nothing more is taken in; there are at most two completions. |
| StageTheorems.OutputIsExpected | src/nv_ingest/stages/multiprocessing_stage.py:398-438 | Whatever leaves the stage, in any interleaving, is what the stage owes for that very message. |
| StageTheorems.FailureIsolation | src/nv_ingest/stages/multiprocessing_stage.py:398-421 | In every run of N engines, a message that has left the stage is failed exactly if it came failed or the stage spoiled this very message; one not taken in is unchanged, one taken in has lost one task, and its payload is the worker's data frame if there is one, also when it is spoiled after that, and else the old one. |
| StageOutcome.LeavesAs | src/nv_ingest/stages/multiprocessing_stage.py:398-421 | Over every run, in terms of the two messages and the worker alone: a message without a task that is let in, or marked failed, leaves as it came; any other has lost the first task of the kind and carries the worker's data frame if there is one; its metadata stay but for the mark and the reason of a failure, set exactly if the worker raises, hands back something foreign, or a bad timestamp while those are wanted. |
| StageOutcome.MetadataKept | src/nv_ingest/util/exception_handlers/decorators.py:34-54 | Over every run, every other key of a message's metadata, as the response channel, survives its failure, and a message that came failed keeps its reason. |
| StageTheorems.FailedWithNewPayloadIff | src/nv_ingest/stages/multiprocessing_stage.py:398-421 | A message has left the stage failed and with another payload exactly if it is spoiled by setting a trace timestamp after the worker's data frame, one other than its own, has been set. |
| StageTheorems.LateSpoilRun | src/nv_ingest/stages/multiprocessing_stage.py:398-421 | A run of nine steps after which a message with trace tagging has left the stage failed and with the worker's data frame. |
| StageTheorems.FailureOfOne | src/nv_ingest/util/exception_handlers/decorators.py:91-113 | The same for what the stage owes for one message: it is failed exactly if the worker raises or hands back a foreign value or a bad trace timestamp, or if it came failed. |
| StageTheorems.FailedNeverInLedger | src/nv_ingest/stages/multiprocessing_stage.py:497-517 | A message that comes failed, or that no task lets in, is never in the ledger, and no package in flight is of it. |
| StageTheorems.WorkerGetsFirstTask | src/nv_ingest/stages/multiprocessing_stage.py:77-110 | In every run, a package at a worker carries the properties of the first task of the kind of a message in the ledger; if the filter rejects them, it has let the message in for a task behind that one. |
| StageTheorems.WorkerGetsRejectedProps | src/nv_ingest/stages/multiprocessing_stage.py:497-517 | A run after which the worker of a stage for docx tasks holds the properties of a pdf task. |
| StageTheorems.FailedStaysFailed | src/nv_ingest/util/exception_handlers/decorators.py:34-54 | Along any chain of stages a failed message passes the rest untouched, so that its mark is never cleared and no task is lost. |
| StageTheorems.Drains | src/nv_ingest/stages/multiprocessing_stage.py:480-531 | From any reachable state the stage takes boundedly many steps of its own, and when none is enabled nothing is left inside it. |
| StageTheorems.QuietStageIsPointwise | src/nv_ingest/stages/multiprocessing_stage.py:459-531 | Once quiet, the ledger is empty and the output is a permutation of the messages owed for the input: the stage refines a pointwise map. |
| StageQueues.QueuesAreBounded | src/nv_ingest/stages/multiprocessing_stage.py:179-480 | Over every run, each engine's two queues hold one event at most, and the pass-through queue no more than its capacity, unless that is 0. |
| StageQueues.MergeKeepsOrder | src/nv_ingest/stages/multiprocessing_stage.py:423-454 | Over every run, messages leave the stage in the order in which they came to the merge node. |
| StageQueues.PassThruKeepsOrder | src/nv_ingest/stages/multiprocessing_stage.py:372-389 | Over every run, the messages the stage has nothing to do for leave it in the order in which they came to the pass-through queue. |
| StageSafety.InvAlways | src/nv_ingest/stages/multiprocessing_stage.py:459-531 | The invariant of ledger, queues, threads and message contents holds after every run. |
| StageSafety.InFlightKept | src/nv_ingest/stages/multiprocessing_stage.py:77-110 | Every step keeps an id in flight exactly once if it is in the ledger and not at all otherwise. |
| StageSafety.PlacesKept | src/nv_ingest/stages/multiprocessing_stage.py:372-389 | Every step keeps every message in exactly one place. |
| StageInvariant.LineMoves | src/nv_ingest/stages/multiprocessing_stage.py:246-298 | A step keeps the order of the packages on an engine's line, adds one at its end or takes one off its front. |
| StageInvariant.CompletionStaysInPlace | src/nv_ingest/stages/multiprocessing_stage.py:334-367 | A completion event stays behind all packages of its engine. |
| StageDrain.StepCloser | src/nv_ingest/stages/multiprocessing_stage.py:246-298 | Every step that is not an arrival lowers the summed distance of all packages to the output. |
| StageDrain.RunsAreBounded | src/nv_ingest/stages/multiprocessing_stage.py:480-531 | A run without arrivals has at most as many steps as the distance of its first state. |
| StageDrain.Progress | src/nv_ingest/stages/multiprocessing_stage.py:440-454 | Unless the stage is quiet, some step of its own is enabled: it cannot deadlock. |
| StageNodes.MultiProcessingBaseStage.OnNext | src/nv_ingest/stages/multiprocessing_stage.py:77-110 | A live message with a matching task loses its first task of the type and enters the ledger with its package sent; any other is left as it is and forwarded. |
| StageNodes.MultiProcessingBaseStage.WorkPackageInputHandler | src/nv_ingest/stages/multiprocessing_stage.py:246-298 | The child thread's loop answers every event up to the completion, in order, and then completes twice. |
| StageNodes.MultiProcessingBaseStage.WorkPackageResponseHandler | src/nv_ingest/stages/multiprocessing_stage.py:334-367 | The parent thread's loop hands on every result and error up to the first completion, in order, and then completes twice. |
| StageNodes.MultiProcessingBaseStage.ReconstructFn | src/nv_ingest/stages/multiprocessing_stage.py:398-421 | Pops the package's message from the ledger and completes that object only: payload, then trace timestamps, under the failure decorator; all metadata but the mark and the reason of a failure stay. |
| StageNodes.LoopsComposed | src/nv_ingest/stages/multiprocessing_stage.py:459-531 | The two loops together hand the subscriber every package once, handled, in the order sent. |
| StageLoops.ChildRunsItsLoop | src/nv_ingest/stages/multiprocessing_stage.py:246-298 | In every run in which an engine's child thread has ended, it has put out what its loop returns for the events it has taken, and these are the events sent to it, in order. |
| StageLoops.ParentRunsItsLoop | src/nv_ingest/stages/multiprocessing_stage.py:344-367 | In every run in which an engine's parent thread has ended, it has called what its loop returns for the replies it has taken, and these are what the child has put out, in order. |
| Fragmentation.SplitLargeDict | src/nv_ingest/modules/sinks/message_broker_task_sink.py:79-100 | The fragments are a contiguous split in order; a fragment over the limit holds one record, every cut is needed, only the first fragment can be empty, and that only if the first record does not fit. |
| Fragmentation.GreedyIsWithinLimit | src/nv_ingest/modules/sinks/message_broker_task_sink.py:79-100 | If every record fits on its own, every fragment is within the limit and not empty. |
| Fragmentation.GreedyIsOptimal | src/nv_ingest/modules/sinks/message_broker_task_sink.py:79-100 | No contiguous split within the limit has fewer fragments. |
| Fragmentation.GreedyStaysAhead | src/nv_ingest/modules/sinks/message_broker_task_sink.py:79-100 | Fragment by fragment the greedy split reaches at least as far as any other within the limit. |
| Fragmentation.TrackedDominatesRealSize | src/nv_ingest/modules/sinks/message_broker_task_sink.py:79-100 | The tracked size is at least the size of the fragment as it is serialised, and exceeds it by exactly 47 bytes for every record and 2 more. |
| Fragmentation.RealSizesWithinLimit | src/nv_ingest/modules/sinks/message_broker_task_sink.py:79-100 | A fragment of two or more records is within the limit as serialised; one that is not holds a single record that does not fit. |
| Fragmentation.CreateJsonPayload | src/nv_ingest/modules/sinks/message_broker_task_sink.py:103-151 | Payloads are numbered 0 to count-1, all with the same count; their data joined in that order is the record list; there is one payload unless the list takes more than 2^27 bytes. |
| Fragmentation.DumpGrows | src/nv_ingest/modules/sinks/message_broker_task_sink.py:79-100 | The JSON text of a list is its records one behind the other, with a comma and a space between them, in brackets. |
| Fragmentation.PayloadTextIs | src/nv_ingest/modules/sinks/message_broker_task_sink.py:103-151 | A payload's text has the list of its records between what is around it, or null for a message that has none. |
| Fragmentation.PayloadsAreSendable | src/nv_ingest/modules/sinks/message_broker_task_sink.py:182-201 | With records that fit and an envelope within the other half of the limit, no payload is refused for its size. |
| Publishing.PushToBroker | src/nv_ingest/modules/sinks/message_broker_task_sink.py:182-201 | Ends in an error of size, with nothing sent, if and only if some text is above 2^28 bytes with its 49 bytes of overhead; otherwise the channel and the outcome are those of the retry specification, whatever each submit returns, raises and leaves. |
| PushOutcome.PreparedIsSent | src/nv_ingest/modules/sinks/message_broker_task_sink.py:103-201 | With records that fit a fragment one by one, at most 2^27 bytes around the data, and a broker that takes every submit, the channel gains exactly the payloads' messages. |
| PushOutcome.TriesAreRetryCount | src/nv_ingest/modules/sinks/message_broker_task_sink.py:154-201 | A positive retry count is the number of attempts: a broker that recovers after fewer broken submits gets the whole list, behind what it had taken; one that does not makes the push end with the error after as many submits; with any other count nothing is tried. |
| PushOutcome.ForwardedAfter | src/nv_ingest/modules/sinks/message_broker_task_sink.py:264-309 | After one broken submit the result is on the channel and no record; after two the record alone. |
| Publishing.SubmitWithRetries | src/nv_ingest/modules/sinks/message_broker_task_sink.py:188-201 | The retry loop leaves the specified additions on the channel for every script of submit outcomes. |
| Publishing.PublishingUnderRetries | src/nv_ingest/modules/sinks/message_broker_task_sink.py:182-201 | For every script of outcomes: a normal return is that of an attempt in which no submit raises, after fewer broken attempts than tries; an error comes after broken attempts only, as many as tries if it is retried. |
| Publishing.NormalReturnIff | src/nv_ingest/modules/sinks/message_broker_task_sink.py:188-201 | A push that returns has left the whole list behind its broken attempts if and only if the broker has taken each submit of the last attempt once. |
| Publishing.PrefixesThenWhole | src/nv_ingest/modules/sinks/message_broker_task_sink.py:182-201 | With a broker that takes every submit that returns once and none that raises, a normal return leaves fewer proper prefixes than tries and then the whole list, and an error proper prefixes only. |
| Publishing.RefusalLosesFragment | src/nv_ingest/util/message_brokers/simple_message_broker/simple_client.py:202-240 | A refused submit that is answered for: the push returns, a fragment is missing, no record is sent, and the fetch breaks. |
| Publishing.PayloadsAreFragments | src/nv_ingest/modules/sinks/message_broker_task_sink.py:115-148 | The payloads made of a result are published as numbered fragments, no two of them equal. |
| Publishing.ProcessAndForward | src/nv_ingest/modules/sinks/message_broker_task_sink.py:285-310 | A push, and after an error in it or before it one failure record, if there is a data frame and there are fragments to quote, for every script of submit outcomes. |
| Publishing.FailureIsRecorded | src/nv_ingest/modules/sinks/message_broker_task_sink.py:248-310 | If the push raises and the last submit returns, a faithful broker's channel has gained proper prefixes and then exactly one failure record; the record alone if a payload is oversized. |
| Publishing.RecordNeedsDataFrame | src/nv_ingest/modules/sinks/message_broker_task_sink.py:248-310 | After an error exactly one submit of a record is made if there is a data frame and there are fragments to quote, and none otherwise; the channel gains as many records as the broker takes of it. |
| Publishing.NoRecordWithoutDataFrame | src/nv_ingest/modules/sinks/message_broker_task_sink.py:296-310 | A message without data frame whose push fails leaves nothing at all on the channel. |
| Fetching.ResponseQueue.FetchMessage | src/nv_ingest/util/message_brokers/redis/redis_client.py:178-263 | The fetching loop gives, pops and breaks as specified: a timeout only on an empty channel, an error for missing fragments, undecodable messages and lost connections. |
| Fetching.CombinedIs | src/nv_ingest/util/message_brokers/redis/redis_client.py:178-296 | What a fetch puts together has data in every part, as many parts as the last one popped says, and is in the order of the fragments' numbers. |
| Fetching.FetchRestores | src/nv_ingest/util/message_brokers/redis/redis_client.py:178-296 | What was fragmented and published in one go is fetched and combined as it was, whatever follows on the channel, and that is left alone. |
| Fetching.FetchRestoresIff | src/nv_ingest/util/message_brokers/redis/redis_client.py:178-296 | For every channel, the first fetch gives the result if and only if the channel starts with the result's fragments, each once, in any order. |
| Publishing.RetryLeftoversSpoilFetch | src/nv_ingest/util/message_brokers/redis/redis_client.py:178-296 | For every script whose push returns and whatever is published later, the first fetch gives the result if and only if the channel starts with its fragments; with a faithful broker, if and only if the push added nothing but the list, and otherwise the fetch gives a result without the last fragment. |
| Publishing.RetrySpoilsFetch | src/nv_ingest/util/message_brokers/redis/redis_client.py:178-296 | A retry after the first of two fragments: the fetch gives the first fragment twice. |
| Fetching.FailureRecordIsFetched | src/nv_ingest/util/message_brokers/redis/redis_client.py:178-263 | A failure record behind too few fragments is what the fetch gives; the fragments are gone. |
| VdbSink.UploadKeeps | src/nv_ingest/modules/sinks/vdb_task_sink.py:300-367 | One message, whatever fails, keeps the sink's invariant and adds exactly its rows to the account of its collection. |
| VdbDue.WrittenWhenDue | src/nv_ingest/modules/sinks/vdb_task_sink.py:329-375 | A message that has rows goes through exactly if none of its inserts is refused; then every accumulator that holds rows and has a full batch, or was last written at least the interval ago, is in the database and empty, and every other holds what it held, with the message's rows. |
| VdbDue.FirstRowsInTime | src/nv_ingest/modules/sinks/vdb_task_sink.py:245-360 | The first rows for the default collection are written at once if and only if they fill a batch or the interval has passed since the sink was made. |
| VdbSink.RunConserves | src/nv_ingest/modules/sinks/vdb_task_sink.py:329-367 | Over every run the rows inserted followed by the rows held are the rows offered, in order, and the message counts are the held row counts. |
| VdbSink.FlushSettles | src/nv_ingest/modules/sinks/vdb_task_sink.py:345-367 | After flushing without failure no accumulator is at or above the batch size. |
| VdbSink.FailureFreeRunSettles | src/nv_ingest/modules/sinks/vdb_task_sink.py:345-367 | Over a failure-free run no accumulator is ever left at or above the batch size. |
| VdbSink.CompletedRunInsertsAll | src/nv_ingest/modules/sinks/vdb_task_sink.py:250-264 | After on_completed without a failed insert, every row offered in the run has been inserted, once and in order. |
| VdbNodes.VdbTaskSink.OnData | src/nv_ingest/modules/sinks/vdb_task_sink.py:300-367 | The accumulating and flushing loop with accumulators updated in place does what the specification does on values; when it goes through, every accumulator is written exactly if it is due by count or by time. |
| VdbNodes.VdbTaskSink.OnCompleted | src/nv_ingest/modules/sinks/vdb_task_sink.py:250-264 | The loop at the end of the stream inserts what is held, passing over failed inserts. |
| BulkIngest.SweepInPlace | src/nv_ingest/modules/sinks/vdb_task_sink.py:82-92 | Removing from the list it iterates over, the loop skips the task after each removed one. |
| BulkIngest.SweepRemovesHalfOfFinished | src/nv_ingest/modules/sinks/vdb_task_sink.py:82-92 | A sweep removes finished tasks only, keeps the others in order, and removes at least half of the finished. |
| BulkIngest.SweepOfFinished | src/nv_ingest/modules/sinks/vdb_task_sink.py:82-92 | When all n tasks are finished a sweep removes exactly ⌈n/2⌉. |
| BulkIngest.HalvingsIsLogarithm | src/nv_ingest/modules/sinks/vdb_task_sink.py:80-92 | Halving down to nothing takes ⌊log2 n⌋ + 1 sweeps. |
| BulkIngest.Poll | src/nv_ingest/modules/sinks/vdb_task_sink.py:80-92 | The loop ends with the first sweep that leaves nothing; for r tasks left when all are finished, after exactly ⌊log2 r⌋ + 1 further sweeps. |
| PptxText.ExtractText | src/nv_ingest/extraction_workflows/pptx/pptx_helper.py:213-436 | The nested loop with its accumulated text hands out, at every depth, the contents that slides, shapes, paragraphs or runs have, which `DeckText.ContentsAre` gives in terms of the runs. |
| DeckText.ContentsAre | src/nv_ingest/extraction_workflows/pptx/pptx_helper.py:228-436 | At span depth the texts are the renderings of exactly the runs with text in paragraphs that are not blank, in order; at line depth one text per such paragraph, closed by an empty line where it does not end in one; at the others these lines joined per text shape, per slide that says something, or for the deck. |
| DeckText.HeadingOnce | src/nv_ingest/extraction_workflows/pptx/pptx_helper.py:250-270 | In Markdown a title or subtitle that says anything gives its heading once and none of its runs. |
| PptxText.FlushPolicyIndependence | src/nv_ingest/extraction_workflows/pptx/pptx_helper.py:228-436 | For every deck and rendering, the contents at line, block, page and document depth join to one string, those at span depth to that string without the added separators, and there are none at other depths. |
| PptxText.ExtractParagraph | src/nv_ingest/extraction_workflows/pptx/pptx_helper.py:230-322 | Whatever is pending ends in a separator or is empty before and after a paragraph, so that its separator depends on the paragraph alone. |
| PptxText.ClosedAtBoundary | src/nv_ingest/extraction_workflows/pptx/pptx_helper.py:297-299 | At a boundary the separator added after a paragraph does not depend on what is pending. |
| PptxText.ShapeTextKept | src/nv_ingest/extraction_workflows/pptx/pptx_helper.py:300-343 | The contents of one shape join to the shape's text at line and block depth, and to its own pieces at span depth. |
| MarkdownEscape.UnescapeEscapeText | src/nv_ingest/extraction_workflows/pptx/pptx_helper.py:691-700 | Resolving backslash escapes as section 2.4 of CommonMark 0.30 has it gives back every text from its escaped form. |
| MarkdownEscape.EscapeTextInjective | src/nv_ingest/extraction_workflows/pptx/pptx_helper.py:691-700 | Different texts are escaped differently. |
| MarkdownEscape.SecondPassInserts | src/nv_ingest/extraction_workflows/pptx/pptx_helper.py:691-700 | The second pass only inserts backslashes directly before a '<', which the first pass never escapes. |
| MarkdownEscape.EscapedIsNeutral | src/nv_ingest/extraction_workflows/pptx/pptx_helper.py:691-700 | Read from left to right, the escaped text has no markup character but behind a backslash, and backslashes before nothing but markup, commas and the '<' of a tag. |
| MarkdownEscape.EscapedTagsAreGuarded | src/nv_ingest/extraction_workflows/pptx/pptx_helper.py:691-700 | In the escaped text a '<' is behind a backslash exactly if a tag starts there that is not inside another one. |
| ShapeGroups.UngroupShapes | src/nv_ingest/extraction_workflows/pptx/pptx_helper.py:641-648 | The recursive loop flattens groups to the list of their shapes in order. |
| ShapeGroups.GroupingIsIrrelevant | src/nv_ingest/extraction_workflows/pptx/pptx_helper.py:641-648 | Grouping neighbours anywhere changes nothing, and flattening again changes nothing. |
| ShapeGroups.NoGroupsLeft | src/nv_ingest/extraction_workflows/pptx/pptx_helper.py:641-648 | No group is left at any nesting depth. |
| ClientTheorems.InvAlways | client/src/nv_ingest_client/client/client.py:126-201 | Over every interleaving the phase of each job fits its attempts, and each specification its last answer. |
| ClientTheorems.SubmittedAtMostOnce | client/src/nv_ingest_client/client/client.py:528-609 | In every run a job is handed to the message client at most once; a pending or waiting one not at all; a submitted or failed one once, answered or not, and it has arrived as often as that call delivered it. |
| ClientTheorems.ReceivedAtMostOnceIff | client/src/nv_ingest_client/client/client.py:528-609 | In every run every job arrives at most once if and only if no call of the message client delivered its job more than once. |
| ClientTheorems.JobArrivesTwice | client/src/nv_ingest_client/message_clients/rest/rest_client.py:268-312 | A run in which one job, handed over once, arrives twice, because the message client has retried. |
| ClientTheorems.SubmittedWithIdIsReceived | client/src/nv_ingest_client/client/client.py:554-571 | A job that counts as submitted under an id has arrived. |
| ClientTheorems.SubmittedWithoutIdSaysNothing | client/src/nv_ingest_client/message_clients/rest/rest_client.py:268-312 | A run in which two jobs count as submitted without an id, of which one has arrived and the other has not. |
| ClientTheorems.IndexesAreFresh | client/src/nv_ingest_client/client/client.py:126-140 | A new job's index has never been in use and is never given again. |
| ClientTheorems.FailedStaysFailed | client/src/nv_ingest_client/client/client.py:572-578 | A job whose submission failed stays failed and is never handed over again, however the run goes on. |
| ClientTheorems.SettleChangesNothing | client/src/nv_ingest_client/client/client.py:480-497 | Waiting for asynchronous submissions changes no job's phase. |
| ClientTheorems.RunContinues | client/src/nv_ingest_client/primitives/jobs/job_state.py:110-119 | Over every run phases only move forward, jobs keep their specification, and the log only grows. |
| ClientTheorems.FetchesLastAnswer | client/src/nv_ingest_client/client/client.py:289-336 | A submitted job is fetched under the id of the last answer to any job with its specification. |
| ClientTheorems.FetchesItsOwnIff | client/src/nv_ingest_client/client/client.py:289-336 | With distinct ids, it is fetched under its own id if and only if no job with the same specification was answered later. |
| ClientTheorems.SentWithContentIff | client/src/nv_ingest_client/client/client.py:554-571 | A job goes out with its content if and only if no earlier submission with its specification was answered. |
| ClientTheorems.TasksChangeIff | client/src/nv_ingest_client/client/client.py:256-259 | A step changes the tasks of a job that has left pending if and only if it adds a task to a pending job with the same task list. |
| ClientTheorems.TaskBringsCompanions | client/src/nv_ingest_client/primitives/jobs/job_spec.py:151-178 | A task added to a pending job comes last; behind an extraction come a table, a chart, an infographic and an audio extraction, once each, in this order, exactly if its options ask for them; behind any other comes nothing. |
| ClientTheorems.SharesListIff | client/src/nv_ingest_client/primitives/jobs/job_spec.py:62-81 | A new specification shares the task list it is given if and only if there are tasks on it; otherwise it has a new one of its own. |
| ClientTheorems.PhasesGoForward | client/src/nv_ingest_client/primitives/jobs/job_state.py:110-119 | Which phase can be set from which: none but forward, and none once a job is completed, failed or cancelled. |
| ClientTheorems.WorkIsDone | client/src/nv_ingest_client/client/client.py:611-647 | A worker is done with the submission it has taken, however it ends, and changes no other. |
| ClientTheorems.TasksFrozen | client/src/nv_ingest_client/client/client.py:256-259 | If jobs are only added with task lists no other job has, every job handed over keeps the tasks it was sent with. |
| ClientTheorems.SharedSpecChangesSentTasks | client/src/nv_ingest_client/client/client.py:179-201 | A run in which a specification added twice lets a task into a job already sent. |
| ClientTheorems.SharedSpecMixesJobs | client/src/nv_ingest_client/client/client.py:554-571 | A run in which a specification added twice lets the second job go out empty and the first be asked for under the second's id. |
| ClientNodes.NvIngestClient.SubmitOne | client/src/nv_ingest_client/client/client.py:528-578 | One submission moves the job, its specification and the log as specified; it succeeds exactly if the job may be submitted and an answer comes. |
| ClientNodes.NvIngestClient.SubmitJob | client/src/nv_ingest_client/client/client.py:580-609 | All jobs are submitted in order whatever fails and whatever the positive batch size; zero is an error, and a negative size submits nothing and reports nothing. |
| ClientNodes.NvIngestClient.SubmitJobAsync | client/src/nv_ingest_client/client/client.py:611-647 | Jobs are marked and queued up to the first that is not pending; it succeeds exactly if every job is pending at its turn. |
| ClientNodes.NvIngestClient.AddJobs | client/src/nv_ingest_client/client/client.py:186-201 | A batch of jobs gets consecutive new indexes. |
| ClientNodes.NvIngestClient.AddTask | client/src/nv_ingest_client/client/client.py:256-259 | A task is added, with those that follow from it, exactly if the job is pending. |
| ClientNodes.NvIngestClient.SetPhase | client/src/nv_ingest_client/primitives/jobs/job_state.py:110-119 | A phase changes exactly if it is not terminal and the new one is not before it. |
| ClientNodes.NvIngestClient.FetchJobResult | client/src/nv_ingest_client/client/client.py:289-336 | A ready job is asked for under its specification's id and forgotten, also when the answer cannot be decoded, which is an error; a job that may not be fetched or is not ready stays, and that is an error too. |
| TextSplitter.SplitIntoChunks | src/nv_ingest/modules/transforms/text_splitter.py:51-67 | The chunks are the ⌈n/step⌉ windows at every step-th token; without a step it fails, and with a negative one there are none. |
| TextSplitter.WindowsShare | src/nv_ingest/modules/transforms/text_splitter.py:51-67 | Every window holds at least one and at most `size` tokens, consecutive ones share exactly min(overlap, what is left), and the last ends with the text. |
| TextSplitter.EveryTokenCovered | src/nv_ingest/modules/transforms/text_splitter.py:51-67 | Every token lies in a window. |
| TextSplitter.ChunksStitchTogether | src/nv_ingest/modules/transforms/text_splitter.py:51-67 | With an overlap of at least one, cutting each chunk where the next begins and joining gives the text from the first token to the last. |
| TextSplitter.ChunksJoinIff | src/nv_ingest/modules/transforms/text_splitter.py:51-67 | Without overlap the chunks join to that text if and only if no characters lie between the last token of a chunk and the next. |
| TextSplitter.SplitAsConfigured | src/nv_ingest/schemas/ingest_job_schema.py:67-77 | A task the schema accepts fails, or yields nothing, exactly if its overlap is defaulted and its chunk size is 150, or below; otherwise the chunks are the windows. |
| TextSplitter.SplitByDefault | src/nv_ingest/schemas/ingest_job_schema.py:67-77 | A task that gives neither value cuts n tokens into ⌈n/874⌉ windows of 1024, one at every 874th. |
| TextSplitter.AcceptedSettings | src/nv_ingest/schemas/ingest_job_schema.py:67-77 | Which chunk sizes and overlaps a split task may give. |
| TextSplitter.DefaultOverlapSpoils | src/nv_ingest/schemas/ingest_job_schema.py:67-77 | Two accepted tasks, with chunk sizes 150 and 100 and no overlap: one fails, the other makes no chunk. |
| Embeddings.GenerateTextEmbeddings | src/nv_ingest/stages/embeddings/text_embeddings.py:256-350 | The loop over content types does what its specification does; with a service that answers prompt by prompt, at every positive batch size, the result is the text rows embedded by their text, the structured ones by their table, the images by their caption and the audios by their transcript, in this order, and then the rest, with their embeddings kept and their flags cleared. |
| Embeddings.EmbeddingIsPointwise | src/nv_ingest/stages/embeddings/text_embeddings.py:223-350 | The result is a permutation of the rows, each row of a supported type with content carrying the embedding of its own content, and does not depend on the batch size. |
| Embeddings.EveryRowIsTreated | src/nv_ingest/stages/embeddings/text_embeddings.py:158-183 | Every row comes out once, embedded by the content its type asks for if that is more than white space, and otherwise with the embedding it had and its flag cleared. |
| Embeddings.VisibleTextSays | src/nv_ingest/stages/embeddings/text_embeddings.py:305-312 | A text with a visible ASCII character is embedded; one of spaces, tabs and line ends is not. |
| Embeddings.BadSizeFails | src/nv_ingest/stages/embeddings/text_embeddings.py:207-220 | Without a positive batch size the embedding fails exactly if there is a row to embed. |
| Embeddings.BatchingIsInvisible | src/nv_ingest/stages/embeddings/text_embeddings.py:125-138 | The embeddings of all batches joined are those of the prompts one by one. |
| Embeddings.GenerateBatches | src/nv_ingest/stages/embeddings/text_embeddings.py:207-220 | The batches cut the prompts in order; with a negative size there are none. |
| Embeddings.BatchesCut | src/nv_ingest/stages/embeddings/text_embeddings.py:207-220 | The batches joined are the prompts; all but the last are full, and the last is not empty. |
| Embeddings.BatchFails | src/nv_ingest/stages/embeddings/text_embeddings.py:49-63 | The embedding fails as a whole if and only if some batch fails. |
| Embeddings.ArrangedIsPermutation | src/nv_ingest/stages/embeddings/text_embeddings.py:223-253 | Selecting by type and appending the rest loses no row and doubles none. |
| MergeDict.MergeInto | src/nv_ingest/util/converters/containers.py:60-65 | The loop merges key by key in any order to the same result, and fails exactly if an override with entries meets a value that is no dictionary. |
| MergeDict.MergedAt | src/nv_ingest/util/converters/containers.py:60-65 | Every path of the result reads from the overrides if they decide it, from the defaults if they do not reach it, and otherwise is the merger of both. |
| MergeDict.MergeTwice | src/nv_ingest/util/converters/containers.py:60-65 | Merging the same overrides again succeeds and changes nothing. |
| MergeDict.AbsorbedIff | src/nv_ingest/util/converters/containers.py:60-65 | A merger is the overrides themselves if and only if they have or decide every path of the defaults. |
| MergeDict.GroupingsAgreeIff | src/nv_ingest/util/converters/containers.py:60-65 | Merging three layers gives the same result or the same error in both groupings if and only if both run into a clash, or neither does and what the last layer merges into a value of the middle one that does not merge absorbs what the first has there. |
| MergeDict.LeftFails | src/nv_ingest/util/converters/containers.py:60-65 | Merging from the left fails exactly at a clash common to both groupings or one that the last layer replaces. |
| MergeDict.RightFails | src/nv_ingest/util/converters/containers.py:60-65 | Merging from the right fails exactly at a common clash or one that an empty dictionary in the middle hides from the other grouping. |
| MergeDict.RegroupsIff | src/nv_ingest/util/converters/containers.py:60-65 | Where neither grouping fails, their results agree if and only if the layers regroup. |
| MergeDict.MergeAssociative | src/nv_ingest/util/converters/containers.py:60-65 | With no empty dictionary in the middle, if the merge from the left goes through so does the one from the right, with the same result. |
| MergeDict.GroupingCanMatter | src/nv_ingest/util/converters/containers.py:60-65 | Three layers with an empty dictionary in the middle for which the grouping matters. |
| MergeDict.GroupingCanFail | src/nv_ingest/util/converters/containers.py:60-65 | Three layers, with an empty dictionary in the middle over a leaf, that merge from the left and fail from the right. |
| TraceId.TraceIdRoundTrip | src/nv_ingest/api/v1/ingest.py:102-107 | A trace id has a job id if and only if it is below 2^128, and the tracer then reads the same trace id back from it. |
| TraceId.JobIdsDistinct | src/nv_ingest/api/v1/ingest.py:132-138 | Distinct trace ids get distinct job ids. |
| TraceId.JobIdShape | src/nv_ingest/api/v1/ingest.py:102-107 | A job id has hyphens exactly at its positions 8, 13, 18 and 23, and lower-case hexadecimal digits at all others. |
| TraceId.JobIdRoundTrip | src/nv_ingest/modules/telemetry/otel_tracer.py:214-219 | Every job id of the right shape is the one its recovered trace id is given. |
| TraceId.CaseIsIrrelevant | src/nv_ingest/modules/telemetry/otel_tracer.py:214-219 | The tracer reads capital hexadecimal digits as it reads small ones. |
| TraceId.ThirtyTwoDigitsIff | src/nv_ingest/api/v1/ingest.py:102-107 | A number prints in exactly 32 hexadecimal digits if and only if it is below 2^128. |
| StatusPolling.StatusService.GetStatus | src/nv_ingest/api/v1/ingest.py:283-350 | A request is answered as complete exactly if no job is left in progress, and then with what the jobs have got, in their order; the cache and the channel change as specified, whatever the fetches do. |
| StatusPolling.PollKeepsIff | src/nv_ingest/api/v1/ingest.py:292-330 | For every cache, channel and course of the fetches: a poll that ends and is written keeps everything if and only if no fetch drops fragments for a single message behind them; any other if and only if no fetch of it has popped anything. |
| StatusPolling.ResultsKept | src/nv_ingest/api/v1/ingest.py:283-350 | Over every run of such polls, whatever is published in between, everything is on the channel or kept with a job. |
| StatusOwnership.ResultsComeFromPositions | src/nv_ingest/api/v1/ingest.py:283-350 | Over every run, whatever is published, also in parts and by several files at once, and however the polls go: every finished job has had one turn, the turns come off the log at increasing positions, and what the job has is what a fetch gives at its position. |
| StatusOwnership.HasResultIff | src/nv_ingest/api/v1/ingest.py:283-350 | In every such run a finished job has a given result of several fragments if and only if exactly these start at its position, and a given single message if and only if that is the one the fetch there ends with. |
| StatusOwnership.OwnResultsIff | src/nv_ingest/api/v1/ingest.py:256-313 | Over every run of results published in one go, in which polls may break between results or not be saved: the jobs are given the results at increasing places of the arrival order; every finished file has its own if and only if what has arrived at these places is what it should get; the places are the first ones, without a gap, if and only if nothing had been lost before a turn. |
| StatusOwnership.LostNothingIff | src/nv_ingest/api/v1/ingest.py:292-330 | A run has lost nothing if and only if no poll that broke or could not write the cache had popped anything. |
| StatusOwnership.OwnResultsInOrderIff | src/nv_ingest/api/v1/ingest.py:256-313 | With results that arrive in the order of the files, published in one go, none of them behind a fetch's back: every finished file has its own if no poll that broke or could not write the cache had popped anything before the last poll that gave something, and, with results that are all different, only then. |
| StatusOwnership.FilesGetEachOthersResult | src/nv_ingest/api/v1/ingest.py:256-313 | Two files whose results arrive in the other order: complete, and each has the other's. |
| StatusOwnership.LostResultShiftsOthers | src/nv_ingest/api/v1/ingest.py:292-330 | Two files whose results arrive in their order; the poll that takes the first result breaks and loses it, and the first file ends with the second's. |
| StatusPolling.LaterBreakLosesResult | src/nv_ingest/api/v1/ingest.py:305-322 | A fetch that breaks for the second file loses the result taken for the first. |
| StatusPolling.MissingFragmentLosesResult | src/nv_ingest/util/message_brokers/redis/redis_client.py:232-243 | A fetch that waits for a fragment in vain breaks, and the fragment it had is gone. |
| StatusPolling.PollKeepsJobs | src/nv_ingest/api/v1/ingest.py:289-330 | A poll keeps the jobs, their order and the results they have. |

## Left out

- Cancellation and `join` of the multiprocessing stage, and `on_error` from upstream.
- Trace timestamps and annotations on messages, beyond the failure of setting one: their clock readings do not influence routing or payloads, and the keys that annotating adds are not among the metadata of StageOutcome.LeavesAs.
- The edges between nodes are unbounded FIFO queues; the pass-through queue is bounded unless its capacity is 0, as in the source.
- StageTheorems.Drains: says that steps without arrivals end, not that a scheduler gives every thread a turn.
- StageTheorems.WorkerGetsFirstTask: takes the match of task properties as any predicate; which regular expressions and lists match is not modelled.
- Fragmentation.SplitLargeDict: takes records as their JSON texts in ASCII; other string widths of `sys.getsizeof` are not modelled.
- Publishing.Forwarded: what an error before the push can leave is whether the fragments can be quoted; the texts of payloads and records are free.
- Reconnecting to the vector database, schema handling and index building progress.
- VdbNodes.VdbTaskSink.OnData: takes an insert as atomic.
- PptxText.ExtractText: renders a run by any function of shape, paragraph and run (links, emphasis, lists and the escaper are behind it); images, tables, bounding boxes, sorting by position and nearby objects are not modelled.
- PptxText.FlushPolicyIndependence: titles and subtitles are one kind of heading, since a placeholder is never both.
- MarkdownEscape.UnescapeEscapeText: resolves backslash escapes only; whether a Markdown reader would still see a tag inside another tag is not covered.
- ClientModel.Apply: takes one `_submit_job` as one step. Callers changing a specification behind the client's back are not modelled.
- ClientNodes.NvIngestClient.Settle: the waiting itself is the interleaving of steps; job objects and specifications are values that the class refers to by number, which keeps their sharing but not Python's object identity.
- MergeDict.MergeInto: works on values, so that the update of the defaults in place, the aliasing of overrides taken over and a merge broken off half-way are not captured.
- Embeddings.GenerateTextEmbeddings: columns other than content, embedding and flag; the cuDF path; rows whose type-specific metadata is missing.
- TextSplitter.SplitIntoChunks: takes the tokenizer's offsets as given; dropping blank chunks and building rows from chunks are not modelled.
- TraceId.TraceIdRoundTrip: Python's other spellings of a base-16 number (underscores, prefix, white space) do not occur in job ids and are not parsed.
- StatusPolling.StatusService.GetStatus: two polls of one conversion at the same time, and the expiry of the cache.
- StatusOwnership.OwnResultsIff: a result is its fragments or one single message, published one behind the other, and a connection fails between results; results in parts, mixed up with others or followed by a failure record, and connections that fail inside one, are in StatusOwnership.ResultsComeFromPositions and HasResultIff only.
- StatusOwnership.OwnResultsInOrderIff: assumes that no result comes in during a poll that has found nothing for an earlier file; with such arrivals StatusOwnership.OwnResultsIff still holds.
- Fetching.Fetch: an empty message on the channel, which counts as none; what the fragments say beside their data and numbers.
- The gather and scatter paths for charts, tables and infographics, image deduplication and filtering, PDF page batches and row selection: the pattern of the embedding path with easier proofs.
- Schemas, command line, viewers, health endpoints and the REST wiring.
