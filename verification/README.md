# A verified model of the !CHAOS service layer

This project models the stateful parts of the !CHAOS control framework's service layer in Dafny and
proves what they keep over every run. `dafny verify dfyconfig.toml` checks the whole of it.

The parts, each a module of its own name:

- **The archiving pipeline of the metadata service.** `DataWorker` is the bounded producer/consumer
  queue as a small-step transition system: every submitter and consumer thread has a program counter
  for each line of the original, and mutexes, condition variables, timeouts, spurious wakeups, the
  wrapping 64-bit counter and the gauges are explicit. `WorkerSafety` proves what every interleaving
  keeps, `WorkerBound` how full the queue gets, `WorkerBoundReached` that the bound is attained for
  every number of threads, and `WorkerWitnesses` holds runs that show what is and what is not
  guaranteed. `Pipeline` puts request handlers, the live cache and any number of such workers
  together, `PipelineSafety` proves the end-to-end results and `PipelineLive` that no put is archived
  past its cache write. `PipelineWorkers` carries the queue bound over to every worker of the
  pipeline, and `UndeclaredTag` shows what becomes of a put with an undeclared tag.
- **The agent.** `AgentRegister` is the registration state machine with its timer, `WorkerTable` its
  ordered map of workers with the loops over it; `ProcessWorker` is the respawn map and the restart
  loop.
- **Datasets pushed and read back.** `QueryCursor` is the page cursor over the object storage,
  `DatasetIO` the client with its cursor table, `SequenceCheck` the checker's counters, `ReadBack` the
  whole way from the pushes to the checker's verdict.
- **Requests and rotation.** `Requests` is the phase machine of remote requests, `Rotation` the two
  round-robin allocators, `RoundRobin` the arithmetic of a rotation through a wrapping counter.
- **Multi-key reads and initial datasets.** `MultiGet` is the request for many keys and its answer
  buffer; `InitDataset` merges published attributes, static setup and restored values.

`Basics`, `Folds` and `Names` hold what they share: optional values, word sizes, sums over sequences and
the order of strings.

Operations that the original performs step by step on fields are classes with methods and loops, each
proved against a function of the old state; the laws are then proved about those functions. Threads
become transition systems, since their steps interleave.

## What was found

Where the code does not do what one would expect, the model follows the code, and the exact condition
is proved:

- `max_element` does not bound the job queue. The bound is `max_element + consumers + submitters - 1`,
  and it is reached (`QueueBound`, `CeilingReached`).
- A notify that falls between a consumer's test of the queue and its wait is lost: the consumer then
  sleeps beside a job until something else happens (`LostWakeup`).
- `stop` takes no lock. A consumer that has just read the stop flag may go to sleep after the
  notification, and `stop` then waits for it until a new call or a spurious wakeup
  (`StopMissesConsumer`).
- `deinit` never drains the queue and `init` zeroes the counter, so a worker that is initialised again
  counts its queue correctly iff it was left empty (`ReinitCounts`); a worker with any number of
  consumers can be started, stopped and left with a job in its queue (`ReinitMiscounts`).
- A put whose tag has the history bit but is none of the four declared tags can be queued and answered
  with 0, and is then dropped (`AnsweredAndDropped`). So the archive holds what succeeded in every
  reachable state iff the tag is a declared one (`ArchiveEquationIff`).
- The 16-bit dispatch index favours the first workers iff their number does not divide 65536
  (`FairForeverIff`, `WorkersShareEvenly`).
- Looking up `"LogWorker"` inserts a null worker that comes first in the worker map. So after a session
  the deinit loop stops at it, and without a session it stops at the process worker, which was never
  initialised: every unregistration throws out of the timer's thread and ends the process
  (`StopEndsProcess`). A process starts and stops its agent at most once (`OneLifePerProcess`).
- `launchProcess` throws a plain copy of what it catches, while the registration tick catches only the
  framework's exceptions. So a launch that fails in the autostart, or in a tick of the process worker,
  ends the process, and the fault state that the tick has for it is never reached (`AckThenTick`,
  `OneLifePerProcess`, `InitialisedOnce`).
- `restartNode` waits while the process is not alive, so a process that was up is relaunched only after
  seven checks in a row found it down, and given up when it has not died at the first one
  (`RestartNode`).
- A page cursor loses documents iff a page boundary falls between documents of equal run and sequence
  id (`DeliversAllIff`, `SplitTieLosesData`).
- A page sends the cursor back, to the start of its run, iff it ends with the largest 64-bit id
  (`LargestIdRestarts`).
- Failing fetches lose nothing iff they come after the last page that holds documents
  (`FaultsCutShort`).
- The test client divides by zero for 1 to 9 loops (`PushAndCheck`).
- After a first `deinit`, a second one releases nothing (`Deinit`).
- The retry count of a request survives a new send, so a resent request may get one or two polls instead
  of three (`FullPatienceIff`).
- A multi-get answer holds one document per key but announces the number of distinct keys, so the client
  reads all of them iff no key repeats (`ExchangeExactIff`); keys survive the request iff they hold no
  terminator and number less than 65536 (`RequestRoundTripIff`).
- Restoring the last dataset has no effect on an attribute without a setup, except that keys unknown to
  the merge disappear (`NoSetupNoRestore`).

## Model

| member | source | states |
|---|---|---|
| `WorkerSafety.InvStep` | ChaosMetadataService/worker/DataWorker.cpp:56-141 | every line of every thread, spurious wakeups and timeouts included, keeps mutual exclusion, the counter modulo 2^64, FIFO order, job conservation, tags and gauges |
| `WorkerSafety.InvRun` | ChaosMetadataService/worker/DataWorker.cpp:56-141 | the same for whole runs of any number of threads |
| `WorkerSafety.CriticalSections` | ChaosMetadataService/worker/DataWorker.cpp:56-83 | in every reachable state each mutex has at most one holder; the `continue` that keeps the lock never leads to a second lock; no consumer takes the front of an empty queue |
| `WorkerSafety.EveryJobAccounted` | ChaosMetadataService/worker/DataWorker.cpp:56-141 | accepted jobs are the popped ones followed by the queue; every call for a job is counted exactly once as stored, dropped, in flight, queued, rejected or under way; a job submitted once is never executed twice and never both rejected and queued |
| `WorkerSafety.AfterStop` | ChaosMetadataService/worker/DataWorker.cpp:98-102 | once stop has joined, every accepted job was executed or is still queued |
| `WorkerSafety.GaugesFollowQueue` | ChaosMetadataService/worker/DeviceSharedDataWorkerMetricCollector.cpp:44-86 | what a worker adds to both gauges equals its queue's elements and bytes up to exactly the jobs caught between two lines; when nobody is mid-way the gauges are the number of queued jobs with tag 1 or 3 and the sum of their data size plus key length, each modulo 2^32, and the counter is the queue's length |
| `WorkerSafety.GaugeWeights` | ChaosMetadataService/worker/DeviceSharedDataWorkerMetricCollector.cpp:44-86 | a job weighs one element and its data size plus key length modulo 2^32 if its tag is 1 or 3, and nothing otherwise |
| `PipelineSafety.SharedGauges` | ChaosMetadataService/worker/DeviceSharedDataWorkerMetricCollector.cpp:31-86 | the two gauges that all workers of a process share equal the elements and bytes of all queues, up to exactly the jobs caught between two lines |
| `WorkerSafety.PopWhileEmpty` | ChaosMetadataService/worker/DataWorker.cpp:109-112 | the drain loop pops only an empty queue, which is undefined, and leaves any other as it is |
| `WorkerSafety.DrainQueue` | ChaosMetadataService/worker/DataWorker.cpp:104-115 | deinit takes no job out of the queue |
| `WorkerSafety.Reinitialise` | ChaosMetadataService/worker/DataWorker.cpp:85-118 | deinit and init keep the queue and zero the counter |
| `WorkerSafety.ReinitCounts` | ChaosMetadataService/worker/DataWorker.cpp:85-118 | after deinit and init the counter is right iff the queue was left empty |
| `WorkerSafety.OccupancySubmit` | ChaosMetadataService/worker/DataWorker.cpp:124-141 | queued jobs plus jobs between increment and push plus jobs between pop and decrement grow only by the increment |
| `WorkerSafety.OccupancyConsume` | ChaosMetadataService/worker/DataWorker.cpp:71-77 | the same sum shrinks only by the decrement |
| `WorkerSafety.JobsConsume` | ChaosMetadataService/worker/DeviceSharedDataWorker.cpp:64-92 | popped copies of a job stay equal to stored plus dropped plus in flight, line by line |
| `WorkerBound.QueueBound` | ChaosMetadataService/worker/DataWorker.cpp:56-141 | without spurious push wakeups the counter, the consumers between decrement and notify and the woken submitters never exceed max_element + consumers + submitters - 1; the counter is exact and its decrement never wraps |
| `WorkerBound.BoundedRun` | ChaosMetadataService/worker/DataWorker.cpp:56-141 | the bound is preserved by every run from any state that has it |
| `WorkerBoundReached.CeilingReached` | ChaosMetadataService/worker/DataWorker.cpp:124-141 | for all positive max_element, submitters and consumers some run without spurious wakeups reaches the bound |
| `WorkerWitnesses.ReinitMiscounts` | ChaosMetadataService/worker/DataWorker.cpp:85-141 | for every job and number of consumers a run leaves the job in the queue of a worker that was started and stopped, whose counter is wrong after deinit and init |
| `WorkerWitnesses.LostWakeup` | ChaosMetadataService/worker/DataWorker.cpp:64-66 | a reachable running worker whose only consumer sleeps beside a queued job, where only a new call, a spurious wakeup or stop is possible |
| `WorkerWitnesses.PushWakesConsumer` | ChaosMetadataService/worker/DataWorker.cpp:56-141 | for every job a run without spurious wakeups in which the push wakes the only, sleeping consumer, which then executes the job: stored for a history tag, dropped otherwise |
| `WorkerWitnesses.StopWakesSleepers` | ChaosMetadataService/worker/DataWorker.cpp:98-102 | stop's notification wakes every consumer asleep at that moment and changes no other thread |
| `WorkerWitnesses.StopMissesConsumer` | ChaosMetadataService/worker/DataWorker.cpp:64-102 | a reachable state in which stop waits for a consumer that went to sleep after the notification, where only a new call or a spurious wakeup is possible |
| `PipelineSafety.InvRun` | ChaosMetadataService/QueryDataConsumer.cpp:122-157 | every interleaving of put handlers and worker threads keeps the handlers seated in the worker they called, the workers' invariants, the rotation, the cache and the put balance |
| `PipelineSafety.ArchiveIsWhatSucceeded` | ChaosMetadataService/QueryDataConsumer.cpp:122-157 | over all workers, the stored, in-flight and queued copies of a history put with a declared tag are the puts that returned 0, plus those about to return |
| `PipelineSafety.LiveOnlyNeverArchived` | ChaosMetadataService/QueryDataConsumer.cpp:140-155 | in every reachable state no worker was called with a put without the history bit, so none accepts, rejects, stores, holds or drops it |
| `PipelineSafety.HistoryAccounted` | ChaosMetadataService/QueryDataConsumer.cpp:122-157 | for every history put, whatever its tag, the stored, in-flight, queued and dropped copies over all workers are the puts that returned 0, plus those about to return |
| `PipelineSafety.UndeclaredTagNeverStored` | ChaosMetadataService/worker/DeviceSharedDataWorker.cpp:64-92 | no worker ever stores a put with an undeclared tag |
| `UndeclaredTag.AnsweredAndDropped` | ChaosMetadataService/worker/DeviceSharedDataWorker.cpp:64-92 | for every history put with an undeclared tag some run answers it with 0 and then drops it |
| `UndeclaredTag.ArchiveEquationIff` | ChaosMetadataService/QueryDataConsumer.cpp:122-157 | the archive holds exactly the successes of a history put in every reachable state iff its tag is declared |
| `PipelineWorkers.Project` | ChaosMetadataService/QueryDataConsumer.cpp:122-157 | every run of the pipeline is, for each of its workers, a run of that worker alone |
| `PipelineWorkers.EveryQueueBounded` | ChaosMetadataService/worker/DataWorker.cpp:56-141 | in every pipeline run without spurious push wakeups every worker keeps the queue bound and an exact counter |
| `PipelineSafety.CacheHoldsLatest` | ChaosMetadataService/QueryDataConsumer.cpp:132-138 | the cache holds a key iff a live put of it was written, and then the last one, whether or not it could be queued |
| `PipelineLive.EveryLivePutIsCached` | ChaosMetadataService/QueryDataConsumer.cpp:132-138 | in every reachable state every received put with the live bit was written to the cache, failed to be, or is about to be |
| `PipelineLive.CachedBeforeArchived` | ChaosMetadataService/QueryDataConsumer.cpp:132-155 | for a put that is live and history, the calls of all workers with it and the handlers on their way to one are exactly its successful cache writes, so none is archived, or answered with 0, whose cache write was skipped or failed |
| `PipelineLive.LiveOnlyAnswers` | ChaosMetadataService/QueryDataConsumer.cpp:132-157 | a put with only the live bit returns 0 exactly once per successful cache write |
| `PipelineLive.OthersGoStraightOn` | ChaosMetadataService/QueryDataConsumer.cpp:140-157 | every put without the live bit was handed to a worker, or answered if it has no history bit, or is on its way |
| `PipelineLive.SuccessWasCalled` | ChaosMetadataService/QueryDataConsumer.cpp:140-155 | a history put returns 0 at most as often as workers were called with it |
| `PipelineLive.FlowRun` | ChaosMetadataService/QueryDataConsumer.cpp:122-157 | every interleaving keeps these balances |
| `PipelineSafety.EveryPutReturns` | ChaosMetadataService/QueryDataConsumer.cpp:122-157 | every received put returned exactly once or is still being handled |
| `PipelineSafety.WorkersShareEvenly` | ChaosMetadataService/QueryDataConsumer.cpp:143 | after n dispatch attempts two workers differ by at most n / 65536 + 1, and by at most 1 when their number divides 65536 |
| `RoundRobin.UsesClosedForm` | ChaosMetadataService/QueryDataConsumer.cpp:143 | how often a slot is used after n requests through a wrapping index, in closed form |
| `RoundRobin.Fair` | ChaosMetadataService/QueryDataConsumer.cpp:143 | any two slots differ by at most n / period + 1, and by at most 1 when the slots divide the period |
| `RoundRobin.FairForeverIff` | ChaosMetadataService/QueryDataConsumer.h:64 | the rotation is fair for ever iff the number of slots divides the period |
| `RoundRobin.WindowUsesEachOnce` | ChaosMetadataService/batch/MDSBatchExecutor.cpp:132-136 | of any `slots` consecutive numbers exactly one falls on each slot |
| `AgentRegister.Register.constructor` | ChaosAgent/AgentRegister.cpp:53-65 | the initial state |
| `AgentRegister.Register.Start` | ChaosAgent/AgentRegister.cpp:84-92 | the whole new state, with a timer added only when none is installed |
| `AgentRegister.Register.Stop` | ChaosAgent/AgentRegister.cpp:94-109 | the whole new state at the start of stop's wait |
| `AgentRegister.Register.RegistrationAck` | ChaosAgent/AgentRegister.cpp:118-146 | the new state, with a denial changing only the phase; the error code of every malformed acknowledgement, which, like one without a result, changes nothing |
| `AgentRegister.Register.Timeout` | ChaosAgent/AgentRegister.cpp:189-283 | one tick, with the switch's fall-through, the loops over the worker table, launches that throw, what is caught of them and the end of the process, equals the transition function |
| `AgentRegister.Register.RunAutostart` | ChaosAgent/AgentRegister.cpp:239-250 | the autostart loop launches and registers the selected nodes of the list up to the first whose launch throws, and what it then throws |
| `AgentRegister.AutostartSelects` | ChaosAgent/AgentRegister.cpp:239-250 | every autostart node is launched as often as it is listed, and respawned iff it is also kept alive |
| `AgentRegister.AckThenTick` | ChaosAgent/AgentRegister.cpp:118-255 | an accepting acknowledgement, with or without a description, and the next tick initialise the workers and autostart the nodes of that description, or of the one before, up to the first whose launch throws; the session is complete and the timer removed iff none throws, otherwise the process ends |
| `AgentRegister.DeniedGivesUp` | ChaosAgent/AgentRegister.cpp:118-199 | after a denial no run sends a further pack until an acknowledgement accepts; without a stop the agent stays unregistered, its next own tick removes the timer and no further one can come |
| `AgentRegister.InitialisedOnce` | ChaosAgent/AgentRegister.cpp:189-283 | in every run, launches that throw included, the process worker is initialised and autostart runs at most once, together, after an accepting acknowledgement; no worker is deinitialised and the fault state is never reached |
| `AgentRegister.StopEndsProcess` | ChaosAgent/AgentRegister.cpp:94-109 | after stop only ticks can come, and the agent's own ends the process by an exception with code -1 after a session and -2 without one, having deinitialised nothing |
| `AgentRegister.OneLifePerProcess` | chaos/common/async_central/AsyncCentralManager.cpp:43-46 | in every run start comes first and once, after stop come only ticks of the process worker and then the agent's own as the last event; the process has ended iff the last event was a tick after stop, an autostart tick in which a launch threw, or a respawn tick in which one threw |
| `WorkerTable.RunInit` | ChaosAgent/AgentRegister.cpp:226-234 | the init loop over the table, with the codes of initImplementation, which puts a worker in the wrong state back |
| `WorkerTable.RunDeinit` | ChaosAgent/AgentRegister.cpp:265-272 | the deinit loop over the table, with the codes of deinitImplementation |
| `WorkerTable.LoopEndsIff` | chaos/common/utility/InizializableService.cpp:69-122 | for every table either loop runs to its end iff every worker is there and in the state the loop starts from |
| `WorkerTable.InitStopsAt` | chaos/common/utility/InizializableService.cpp:69-96 | row by row: the init loop starts every worker before the first missing or initialised one, puts the latter back, leaves the rest, and ends with the code for what it met |
| `WorkerTable.DeinitStopsAt` | chaos/common/utility/InizializableService.cpp:100-122 | row by row: the deinit loop stops every worker before the first missing or uninitialised one, leaves the rest, and ends with the code for what it met |
| `WorkerTable.TouchKeepsOrder` | ChaosAgent/AgentRegister.cpp:237-238 | a lookup keeps the key order and the workers that are there, and adds only a null worker under the name |
| `WorkerTable.LookupStopsLoops` | ChaosAgent/AgentRegister.cpp:237-238 | after the lookup of a missing name neither loop ever runs to its end |
| `WorkerTable.LoopsOnTables` | ChaosAgent/AgentRegister.cpp:226-272 | what the loops and lookups make of the agent's own tables, the null worker sorting first |
| `AgentRegister.UnansweredTicks` | ChaosAgent/AgentRegister.cpp:200-216 | n unanswered ticks after a start send as many packs as the 32-bit count hits multiples of five, for every n |
| `AgentRegister.PacksSent` | ChaosAgent/AgentRegister.cpp:206-216 | that is ceil(n / 5) as long as n is at most 2^32 |
| `AgentRegister.PacksAfterStart` | ChaosAgent/AgentRegister.cpp:84-216 | from the first start on, n unanswered ticks send ceil(n / 5) packs, for n up to 2^32 |
| `ProcessWorker.Worker.constructor` | ChaosAgent/worker/ProcessWorker.cpp:53-99 | nothing to respawn, nothing launched |
| `ProcessWorker.Worker.AddToRespawn` | ChaosAgent/worker/ProcessWorker.cpp:127-131 | the new map |
| `ProcessWorker.Worker.RemoveToRespawn` | ChaosAgent/worker/ProcessWorker.cpp:133-137 | the new map |
| `ProcessWorker.Worker.LaunchNode` | ChaosAgent/worker/ProcessWorker.cpp:139-166 | the error codes, when the process is launched, and when the node joins the map, which it does not when the launch throws |
| `ProcessWorker.Worker.StopNode` | ChaosAgent/worker/ProcessWorker.cpp:168-182 | quits a live process, then removes the node |
| `ProcessWorker.Worker.RestartNode` | ChaosAgent/worker/ProcessWorker.cpp:184-217 | for every sequence of check answers: at most five rounds, a relaunch is attempted iff the last check read down, the exact answers that lead there, map membership iff relaunched without an exception and kept alive, and the number of quits |
| `ProcessWorker.Worker.Timeout` | ChaosAgent/worker/ProcessWorker.cpp:112-125 | launches exactly the map members found dead, once each, with their associations; an exception escapes iff one of their launches throws, and then exactly those before the first such in key order were launched |
| `ProcessWorker.MapIsLastWord` | ChaosAgent/worker/ProcessWorker.cpp:127-217 | after every history a node is in the map, with the association of its latest adding step, iff no step removed it since |
| `ProcessWorker.NoRespawnAfterRemove` | ChaosAgent/worker/ProcessWorker.cpp:112-182 | after a removal no tick launches the node until it is added again |
| `ProcessWorker.TickDuringStop` | ChaosAgent/worker/ProcessWorker.cpp:168-182 | a tick between the two halves of a stop launches the node that is being stopped |
| `QueryCursor.ScanFinds` | ChaosMetadataService/object_storage/mongodb_3/MongoDBObjectStorageDataAccess.cpp:593-595 | the first document that is not below a position, everything before it being below |
| `QueryCursor.ScanSplits` | ChaosMetadataService/object_storage/mongodb_3/MongoDBObjectStorageDataAccess.cpp:593-595 | in an ordered archive the documents before a query's start are those of an earlier run, or of the same run with a smaller sequence id |
| `QueryCursor.FetchData` | chaos/common/io/QueryCursor.cpp:216-237 | a page query fails, or gives the last page, or a full page after which the delivery goes on above its last document |
| `QueryCursor.Cursor.constructor` | chaos/common/io/QueryCursor.cpp:59-97 | a new cursor has everything still to deliver |
| `QueryCursor.Cursor.Resume` | chaos/common/io/QueryCursor.cpp:99-153 | a resuming cursor delivers from its position on; with sequence id 0 it starts over whatever the run, and an id above the largest signed one finds what 0 finds |
| `QueryCursor.ResumeSkips` | chaos/common/io/QueryCursor.cpp:99-153 | a resumed cursor skips exactly the documents before its position; nothing for sequence id 0, only earlier runs for one above the largest |
| `QueryCursor.Cursor.HasNext` | chaos/common/io/QueryCursor.cpp:165-181 | true iff something is left, without losing any of it |
| `QueryCursor.Cursor.Next` | chaos/common/io/QueryCursor.cpp:53-56 | hands out the first of what is left, or throws when the page is used up |
| `QueryCursor.Cursor.FetchNewPage` | chaos/common/io/QueryCursor.cpp:188-237 | refills the page without changing what is left to deliver, and records a failed fetch |
| `QueryCursor.Cursor.TakePage` | chaos/common/io/QueryCursor.cpp:229-236 | a received page is what is left to hand out, ends the query iff it is short, and otherwise moves the start above its last document |
| `QueryCursor.DeliversAllIff` | chaos/common/io/QueryCursor.cpp:188-237 | without failures a cursor delivers every document iff no page boundary splits documents of equal position |
| `QueryCursor.DistinctAllDelivered` | chaos/common/io/QueryCursor.cpp:188-237 | documents of distinct positions are all delivered, whatever the page length |
| `QueryCursor.PagedEqualsUnpaged` | ChaosDataExport/TestDatasetIO/ChaosDatasetIO.cpp:340-416 | two page lengths that split no tie, such as those of a paged and the unpaged query, deliver the same |
| `QueryCursor.SplitTieLosesData` | chaos/common/io/QueryCursor.cpp:200-204 | of two documents at one position pages of one deliver one, longer pages both |
| `QueryCursor.LargestIdRestarts` | chaos/common/io/QueryCursor.cpp:200-204 | the next page goes back iff this one ends with the largest id, and then to the first document of its run |
| `QueryCursor.FaultsGivePrefix` | chaos/common/io/QueryCursor.cpp:216-229 | failing fetches leave a prefix of the failure-free delivery |
| `QueryCursor.FaultsCutShort` | chaos/common/io/QueryCursor.cpp:188-237 | documents of distinct positions are all delivered iff none of the fetches of a non-empty page fails, and otherwise a shorter prefix |
| `QueryCursor.PagesRoundUp` | chaos/common/io/QueryCursor.cpp:232-234 | these are the first ceil(n / page length) fetches |
| `DatasetIO.DatasetIO.constructor` | ChaosDataExport/TestDatasetIO/ChaosDatasetIO.cpp:45-70 | counters at zero, no cursors |
| `DatasetIO.DatasetIO.PushDataset` | ChaosDataExport/TestDatasetIO/ChaosDatasetIO.cpp:124-167 | overwrites the sequence id with the type's counter, which grows by one modulo 2^64; adds the run id only if there is none |
| `DatasetIO.DatasetIO.OpenQuery` | ChaosDataExport/TestDatasetIO/ChaosDatasetIO.cpp:340-358 | answers 0 without a cursor; otherwise an id never issued before, for a cursor with everything to deliver |
| `DatasetIO.DatasetIO.QueryHasNext` | ChaosDataExport/TestDatasetIO/ChaosDatasetIO.cpp:359-372 | true iff the query exists and something is left of it |
| `DatasetIO.DatasetIO.GetNextPage` | ChaosDataExport/TestDatasetIO/ChaosDatasetIO.cpp:373-398 | the next page-length documents of what is left; the cursor is released and forgotten iff nothing remains |
| `DatasetIO.DatasetIO.QueryAll` | ChaosDataExport/TestDatasetIO/ChaosDatasetIO.cpp:399-416 | everything a cursor of page length 30 delivers; that cursor is released |
| `DatasetIO.DatasetIO.Deinit` | ChaosDataExport/TestDatasetIO/ChaosDatasetIO.cpp:425-447 | every cursor ever opened has been released, exactly once each, iff this is the first call or no query was open |
| `DatasetIO.TakePage` | ChaosDataExport/TestDatasetIO/ChaosDatasetIO.cpp:385-390 | the page loop takes the first page-length documents and leaves the rest |
| `SequenceCheck.CheckData` | ChaosDataExport/TestDatasetIO/main.cpp:20-68 | the loop computes the fold of the counters over the items |
| `SequenceCheck.CheckConcat` | ChaosDataExport/TestDatasetIO/main.cpp:204-224 | counters threaded from page to page are those of one pass over the concatenation |
| `SequenceCheck.ZeroErrorsIff` | ChaosDataExport/TestDatasetIO/main.cpp:20-68 | no errors iff every item has a sequence id, any run id is the expected one and the ids are k, k+1, ... modulo 2^64 |
| `SequenceCheck.Tally` | ChaosDataExport/TestDatasetIO/main.cpp:26-66 | each error is exactly one foreign item, unnumbered item, replicated item or gap; malformed counts the items without a run id |
| `SequenceCheck.Conservation` | ChaosDataExport/TestDatasetIO/main.cpp:26-66 | for every input the advance of the expected id equals missing + numbered items of the run - replicated, modulo 2^64 |
| `SequenceCheck.ExactConservation` | ChaosDataExport/TestDatasetIO/main.cpp:26-66 | the equation holds as it stands, not only modulo 2^64, if no id is 2^64 - 1 |
| `SequenceCheck.ExpectedIsOneAbove` | ChaosDataExport/TestDatasetIO/main.cpp:26-66 | from fresh counters and ids below 2^64 - 1, the expected id is 0 if no numbered item of the run was seen, otherwise one above the largest id seen |
| `SequenceCheck.MissingArePassedOver` | ChaosDataExport/TestDatasetIO/main.cpp:40-53 | and the missing packets are the ids that the run passed over, whatever the order: the first item to get so far had a larger id |
| `SequenceCheck.MissingAreNotCarried` | ChaosDataExport/TestDatasetIO/main.cpp:40-53 | for increasing ids these are exactly the ids below the largest one that no item carries |
| `ReadBack.PushAll` | ChaosDataExport/TestDatasetIO/main.cpp:130-189 | the push loop stores the dataset with consecutive ids and one run id; it dies after the first push iff the loops are 1 to 9 |
| `ReadBack.ReadPages` | ChaosDataExport/TestDatasetIO/main.cpp:215-223 | the client loop ends; its pages, all full but the last, concatenate to what the cursor had to deliver; the counters are those of one pass over it |
| `ReadBack.PushAndCheck` | ChaosDataExport/TestDatasetIO/main.cpp:130-246 | a registered client dies iff n is 1 to 9; otherwise it reports no error iff it is registered and n is 0, or there is a cursor, no fetch of a page fails, numbering started at 0 and the dataset's own run id is absent or the client's, for any page length or unpaged; unless it dies, it has released every cursor exactly once |
| `Requests.Request.constructor` | ChaosMetadataService/batch/MDSBatchCommand.h:60-67 | a fresh request |
| `Requests.Request.SendRequest` | ChaosMetadataService/batch/MDSBatchCommand.cpp:99-108 | sent, with a future, the retry count kept |
| `Requests.Request.SendMessage` | ChaosMetadataService/batch/MDSBatchCommand.cpp:110-118 | completed at once |
| `Requests.Request.ManageRequestPhase` | ChaosMetadataService/batch/MDSBatchCommand.cpp:191-242 | the new state of one poll and its exceptions |
| `Requests.SentHasFuture` | ChaosMetadataService/batch/MDSBatchCommand.cpp:99-118 | in every run a sent request has a future, so polling throws only for a request that was never sent |
| `Requests.PollingStep` | ChaosMetadataService/batch/MDSBatchCommand.cpp:196-226 | for every retry count and all answers: completed by the first answer in time, timed out after exactly the polls it stands, sent until then |
| `Requests.LastSendDecides` | ChaosMetadataService/batch/MDSBatchCommand.cpp:99-242 | in every run the last send decides: a message ends completed whatever is polled, a request as its retry count at the send and the answers since say |
| `Requests.NeverSent` | ChaosMetadataService/batch/MDSBatchCommand.cpp:191-242 | without a send a request stays as created, unsent or, for a node that is down, timed out |
| `Requests.ThreePollsEnd` | ChaosMetadataService/batch/MDSBatchCommand.cpp:191-242 | every reachable sent request is completed or timed out after three polls |
| `Requests.Absorbing` | ChaosMetadataService/batch/MDSBatchCommand.cpp:227-240 | polling never changes a completed or timed-out request |
| `Requests.FullPatienceIff` | ChaosMetadataService/batch/MDSBatchCommand.cpp:221-223 | a send grants all three polls iff the retry count is a multiple of three and not 2^32 - 1 |
| `Rotation.ChannelPool.constructor` | chaos_metadata_service_client/ChaosMetadataServiceClient.h:70-71 | an empty pool |
| `Rotation.ChannelPool.GetChannel` | chaos_metadata_service_client/ChaosMetadataServiceClient.cpp:199-238 | over the pool's whole life the k-th counted request gets channel k mod size, while growing and rotating, with failed allocations interleaved, which get the first channel or none and are not counted |
| `Rotation.Sandboxes.constructor` | ChaosMetadataService/batch/MDSBatchExecutor.cpp:43-48 | the index starts at 3 |
| `Rotation.Sandboxes.GetNextSandboxToUse` | ChaosMetadataService/batch/MDSBatchExecutor.cpp:132-136 | the k-th request gets sandbox (3 + k) mod the number of sandboxes |
| `Rotation.EverySandboxOnce` | ChaosMetadataService/batch/MDSBatchExecutor.cpp:132-136 | of any `count` consecutive requests exactly one gets each sandbox |
| `MultiGet.EncodeKeys` | chaos/common/direct_io/channel/DirectIODeviceClientChannel.cpp:207-213 | the request is the keys with a terminator each |
| `MultiGet.DecodeKeys` | chaos/common/direct_io/channel/DirectIODeviceServerChannel.cpp:138-143 | the server reads each key up to the next terminator |
| `MultiGet.RequestRoundTripIff` | chaos/common/direct_io/channel/DirectIODeviceClientChannel.cpp:205-213 | the server reads the requested keys iff none holds a terminator and there are fewer than 65536 |
| `MultiGet.GetData` | ChaosMetadataService/cache_system/CouchbaseCacheDriver.cpp:208-235 | the result map has exactly the requested keys, each with the cached bytes or, if it is missing, none |
| `MultiGet.Answer` | ChaosMetadataService/QueryDataConsumer.cpp:260-300 | the buffer holds one document per key in request order, the empty document for a missing one; the count is the number of distinct keys |
| `MultiGet.ReadDocuments` | chaos/common/direct_io/channel/DirectIODeviceClientChannel.cpp:234-241 | cutting a concatenation of documents by their length prefixes gives the documents back |
| `MultiGet.RequestLastOutputData` | chaos/common/direct_io/channel/DirectIODeviceClientChannel.cpp:194-245 | for all keys the whole exchange gives as many documents as the server saw distinct keys, in request order; for fewer than 65536 keys without a terminator the i-th is what the cache holds under the i-th key, or the empty document; -1 for no keys or no cache connection |
| `MultiGet.ExchangeExactIff` | ChaosMetadataService/QueryDataConsumer.cpp:275-294 | the client gets one document per key iff no key repeats, and otherwise a prefix |
| `MultiGet.ExchangeReadsCache` | ChaosMetadataService/QueryDataConsumer.cpp:260-300 | for distinct such keys the client gets, key by key, what the cache holds, or the five bytes of the empty document |
| `MultiGet.DistinctIff` | ChaosMetadataService/QueryDataConsumer.cpp:294 | the announced number agrees with the number of keys iff no key repeats |
| `InitDataset.MergeAt` | ChaosMetadataService/common/CUCommonUtility.cpp:418-433 | for every key where the merge takes its value from and in which form; unknown keys are dropped |
| `InitDataset.MergeIdempotent` | ChaosMetadataService/common/CUCommonUtility.cpp:418-433 | merging again changes nothing |
| `InitDataset.Restore` | ChaosMetadataService/common/CUCommonUtility.cpp:155-169 | the copy loop, in any key order, replaces the default value by the last dataset's |
| `InitDataset.GetConfigurationToUse` | ChaosMetadataService/common/CUCommonUtility.cpp:120-179 | which configuration is used, and the error codes of every failing fetch |
| `InitDataset.InitDataset` | ChaosMetadataService/common/CUCommonUtility.cpp:247-276 | the initial dataset has the published length and order, attribute by attribute; otherwise the error is that of the first failing attribute |
| `InitDataset.InitWithSetup` | ChaosMetadataService/common/CUCommonUtility.cpp:120-276 | key by key, for an input with a setup: default value and range are the setup's where it has them, a default value that the setup has is the last dataset's when restoring finds one there, the rest is as published, unknown keys are dropped |
| `InitDataset.InitOtherwise` | ChaosMetadataService/common/CUCommonUtility.cpp:120-276 | every error code, and exactly which attributes are left as published: outputs, and inputs with neither a setup nor a dataset to restore from |
| `InitDataset.InitKeeps` | ChaosMetadataService/common/CUCommonUtility.cpp:253-274 | no attribute is renamed or turned, and one that is not an input is untouched |
| `InitDataset.RestoreChangesDefaultOnly` | ChaosMetadataService/common/CUCommonUtility.cpp:158-169 | restoring changes no key but the default value, and exactly when and to what it changes that |
| `InitDataset.NoSetupNoRestore` | ChaosMetadataService/common/CUCommonUtility.cpp:151-169 | without a setup nothing is restored, and keys unknown to the merge disappear |

## Left out

- Networking, RPC and DirectIO transport, MongoDB and libcouchbase: their answers are parameters (a cache, the documents of a query, which fetches fail, whether a connection exists).
- Liveness of the job queue: a wakeup can be lost, as LostWakeup shows, so nothing is claimed about progress.
- setMaxElement: it overwrites the job counter with the new limit, so runs do not contain it.
- Jobs without content and exceptions thrown by object storage inside `executeJob`.
- The push of a job and the front-and-pop of a consumer are single steps; the data race between them is not modelled.
- AgentRegister: exceptions other than those of the worker loops and of launches, health metrics and the contents of the registration pack; with assertions compiled in, deregistering the null worker aborts before the exception is thrown, which ends the process as well. A tick of the process worker may throw in any session, whatever its map holds.
- AgentRegister.Register.Stop: models stop up to its wait; that the next start comes after the wait is a premise of runs.
- Process management itself: each check of a process, and whether a launch throws, is an answer of the environment; sleeping between checks takes no time. What the RPC dispatcher does with an exception of a handler is not modelled.
- QueryCursor: a cursor that reads a full page ending with the largest id goes round in that run, so its delivery has no end; the results are for archives in which no page it reads ends so. The overflow of the increment is undefined in the original and taken to wrap.
- QueryCursor.FetchData: a fetch without any client, which leaves the cursor in its phase, is not modelled, nor are stored documents without data, nor the archive changing while it is read.
- DatasetIO.DatasetIO.PushDataset: timestamps, device id and dataset type of the pushed dataset are not modelled.
- DatasetIO.DatasetIO.OpenQuery: page length 0 is excluded by precondition.
- The 32-bit totals and error counts of the test client, and wrap-around of the query index and of `io_pool_req`.
- Requests: looking up the node's address and whether it is alive before a send; a node that is not alive gives a request that starts timed out.
- Rotation.ChannelPool.GetChannel: the pool size is fixed and positive.
- MultiGet.ReadDocuments: reads what the server wrote; the behaviour on bytes that are not documents is undefined in the original.
- MultiGet.RequestLastOutputData: with assertions compiled in, the client aborts when the answer announces no result, which is the case iff a positive multiple of 65536 keys is asked for.
- ReadBack.PushAndCheck: the ids of the pushes are below 2^63 - 1, the archive holds exactly what was pushed, and with page length 0 the client's extra query, which it never reads, is not opened.
- InitDataset: keys are compared by exact spelling, while the copy of a key in the original ignores case; the two property checks that ask for a restore are one flag; the other parts of the init pack are not modelled.
- The Couchbase server list and connection string, `fillKVParameter`, `mergeDefaultToProperty`, `DeployWorker`, the API groups, the Qt user interface and the JNI wrappers: they would only add easy members or are outside the core.
