# CeleryToGo, verified

A Dafny model of the parts of CeleryToGo in which tasks can get lost, doubled or mixed up, with proofs of what those
parts keep. CeleryToGo receives messages from an SQS FIFO queue, hands them to a pool of Python processes and
acknowledges them. The model follows the Go code branch by branch, including the branches in which it does not do what
its comments or documentation say.

| file | contents |
|---|---|
| `FifoQueues.dfy` | the broker's map from message group to queue, and what each locked region does to it |
| `FifoBroker.dfy` | the broker as a class: configuration, internal dequeue, probe, single and batch receive, acknowledgement |
| `FifoProtocol.dfy` | the broker interleaved with an SQS FIFO server, concurrent acknowledgements and lost replies |
| `FifoOrder.dfy` | what that guarantees to the consumers of a message group |
| `FifoStranding.dfy`, `FifoPoison.dfy` | which messages the broker never hands out: those it strands itself, and those behind undecodable ones |
| `FifoRefinement.dfy`, `FifoDelivery.dfy` | the broker's methods as runs of that protocol, and logs that get through completely |
| `PoolModel.dfy`, `PoolMachine.dfy` | process statistics, the recycling test, and every interleaving of the pool's goroutines |
| `PoolOwnership.dfy`, `PoolQuota.dfy`, `PoolLedger.dfy`, `PoolRouting.dfy` | what those interleavings keep: exclusive processes, the task quota, the counters and the size, one reply per request |
| `PoolOperations.dfy`, `ProcessPool.dfy` | the pool's operations without interleaving: what they do, and the pool as a class whose methods do it |
| `PoolRuns.dfy`, `PoolRefinement.dfy` | runs in which one goroutine moves alone; the operations are such runs |
| `PoolTask.dfy`, `PoolOvershoot.dfy`, `PoolPeak.dfy`, `PoolBalance.dfy` | one task from beginning to end, and how far the interleavings can go: the largest size, and when the counters stop adding up |
| `PythonProcess.dfy` | one process as a class: execution of a task and the scan for its result |
| `TaskLedger.dfy`, `TaskWorker.dfy` | the task lifecycle: every interleaving, and the worker as a class whose methods are runs of it |
| `JsonModel.dfy`, `Numerals.dfy` | JSON values, float64 numbers, decimal numerals |
| `CeleryCodec.dfy`, `CeleryFields.dfy` | Celery v2 messages and the internal messages: round trips, and what is read from messages built elsewhere |
| `Basics.dfy` | options, results, minima |

## How concurrency is modelled

Each region under one lock is one atomic step, and so is each update of a counter. A run is a sequence of states in
which neighbours are one step apart; theorems about runs hold for every run of every length. Go map iteration order is
arbitrary, so loops over maps pick the next key freely.

In `FifoProtocol` the remote delete and the local release of an acknowledgement are separate steps, any call to SQS may
fail or lose its reply, and messages the broker does not hold may become visible again at any time. The server obeys
the FIFO delivery logic of the Amazon SQS Developer Guide: messages of a group come in publish order and a group is
locked while one of its messages is in flight. The one assumption is that the visibility of a message the broker
holds does not expire before the message is deleted.

## What the code does not do

- A message queued behind another of its group is not handed out once that one has been received. The comment at
  `internal/broker/sqs/fifo.go:670-671` says that queued messages will be processed by a later receive, but release
  keeps the processing flag and the dequeue skips flagged groups. `QueuedHandedOutIff` says exactly which queued
  messages are still handed out in some continuation, `StrandedIsDead` and `StrandedForever` that the others never
  are, `BatchStrandsIff` which batches do it to which group, and `StrandsIff` which settings allow it: batch mode with
  a prefetch and a MaxPrefetch of at least 2. Single mode never strands a message.
- An undecodable message is never deleted, and blocks what is behind it in its group: `PoisonBlocks`. In single mode one is
  enough, and `DeliverableIff` says that nothing else keeps a decodable message from getting through; in batch mode it takes as
  many as one receive can ask for.
- Acknowledgement does not wait for success (`examples/sqs-fifo/README.md:39`): `FailedTaskIsAcked`. What does hold is
  `AckedOnce` and, once all is done, `DrainedAcksDecodable`, whether or not task ids repeat, and `AckedLate` when they
  do not.
- Task states do not only move forward when a task id is delivered twice, and then an acknowledged task need not be
  finished: `RepeatedIdRegresses`. `RegressesIff` says which steps do it.
- `MaxProcesses` is not a cap while goroutines run concurrently. `LargestSize` gives the largest number of live processes
  that is reached: twice MaxProcesses, or MaxProcesses + 1 when MinProcesses is 1.
- Idle + Busy = Total is not an invariant of the pool's counters. `BalanceIsLost` is a run in which one failing task
  breaks it for good; `QuietBalanceIff`, `ImbalanceStays` and `BalanceIff` say when it holds.
- A task message built by `EncodeTask` is not accepted by `DecodeTask`: `EncodedTaskRejected`; `FallbackIff` says which
  inputs do reach the internal format.
- Retry counts beyond 2^53 can change on their way through JSON: `CeleryRoundTripIff` and `FirstLoss`.

## Model

| member | source | states |
|---|---|---|
| FifoOrder.OneAtATime | internal/broker/sqs/fifo.go:163-180 | in every run of broker and server, no two messages of one group are handed out (or chosen to be) and undeleted at once |
| FifoOrder.HandedInPublishOrder | internal/broker/sqs/fifo.go:365-428 | what has been handed out for a group is exactly the decodable part of a prefix of what was published in it: order, no duplicate, no gap |
| FifoOrder.HandedIncreasing | internal/broker/sqs/fifo.go:299-361 | over the whole run, messages of one group are handed out with strictly increasing sequence numbers |
| FifoOrder.DeletedWasHanded | internal/broker/sqs/fifo.go:431-457 | no decodable message is deleted from SQS without having been handed to the worker |
| FifoProtocol.RunInv | internal/broker/sqs/fifo.go:533-683 | every reachable state satisfies the group invariant: accepted messages are those of a publish prefix, in flight until deleted, all handed-out ones but the last deleted |
| FifoProtocol.NextInv | internal/broker/sqs/fifo.go:398-457 | every step of receive loop, probe, acknowledgement halves, publisher and server keeps that invariant |
| FifoProtocol.ServedContinues | internal/broker/sqs/fifo.go:290-297 | when all accepted messages of a group are deleted, what the server delivers next continues its publish order without a gap |
| FifoProtocol.ReleaseFrees | internal/broker/sqs/fifo.go:659-683 | the local half of an acknowledgement frees a known group with an empty queue, leaves one with queued messages and all other groups as they were, and changes nothing else |
| FifoStranding.StrandedIsDead | internal/broker/sqs/fifo.go:372-376 | once a group is processing with queued messages it stays so in every later state of every run, and nothing of it is handed out again |
| FifoStranding.QueuedHandedOutIff | internal/broker/sqs/fifo.go:666-680 | in every reachable state, a queued message can still be handed out if and only if its group is not processing; the comment there promises it always |
| FifoStranding.RunMarksClear | internal/broker/sqs/fifo.go:213-230 | a single receive marks a group only while its internal queue is empty |
| FifoStranding.StrandsIff | internal/broker/sqs/fifo.go:271-279 | some run strands a message if and only if the broker is in batch mode and both the prefetch and MaxPrefetch are at least 2 |
| FifoStranding.StrandingHappens | internal/broker/sqs/fifo.go:411-419 | whenever a receive may ask for two messages, a run in which two messages of one group are received at once and the second is stranded |
| FifoStranding.RunCalm | internal/broker/sqs/fifo.go:188-189 | when receives ask for one message at a time, no reachable state has a second message in a queue or any queued message in a processing group |
| FifoPoison.PoisonBlocks | internal/broker/sqs/fifo.go:313-317 | in every run, a message is handed out only if fewer undecodable ones were published before it in its group than one receive can ask for; in single mode, only if there is none |
| FifoPoison.RunBlocks | internal/broker/sqs/fifo.go:227-231 | the invariant behind it: that bound for everything accepted, and only decodable messages are ever deleted |
| FifoDelivery.EverythingGetsThrough | internal/broker/sqs/fifo.go:163-180 | for every configuration that asks for at least one message, any log of decodable messages can be published and then handed out, deleted and released one by one |
| FifoDelivery.DeliverableIff | internal/broker/sqs/fifo.go:183-260 | in single mode a decodable message can be handed out in some run if and only if everything published before it in its group is decodable |
| FifoRefinement.DequeuesWhole | internal/broker/sqs/fifo.go:365-395 | whatever a dequeue may do to the map is a step of the protocol |
| FifoRefinement.ReceivesWhole | internal/broker/sqs/fifo.go:183-361 | whatever an uninterrupted receive does to the map and returns, in either mode, for every probe and every reply SQS may give, steps of the protocol do too |
| FifoRefinement.AcknowledgesWhole | internal/broker/sqs/fifo.go:431-457 | and so for an acknowledgement whose delete succeeds |
| FifoRefinement.FailsToAcknowledge | internal/broker/sqs/fifo.go:437-445 | and for one whose delete fails: the map stays as it is |
| FifoQueues.DequeueConserves | internal/broker/sqs/fifo.go:365-395 | for every map order a dequeue leaves a group alone or returns exactly the head of a non-processing one: returned plus remaining is the old queue |
| FifoQueues.BatchConserves | internal/broker/sqs/fifo.go:299-361 | each well-formed message of a reply is returned once as the first of its group or appended once to its own queue, in arrival order; one is returned per distinct group |
| FifoQueues.BatchStrandsIff | internal/broker/sqs/fifo.go:398-428 | after a batch a group is stranded if and only if it was before, or its queue was empty and two or more well-formed messages of the reply are its own |
| FifoQueues.ProbeCreatesOnly | internal/broker/sqs/fifo.go:547-631 | a probe with at most one message changes no known group; it creates at most one, holding that message: the append to an existing group is never taken |
| FifoQueues.StrandedStep | internal/broker/sqs/fifo.go:638-683 | any locked region with any server reply keeps a stranded group stranded, only appends to its queue and dequeues none of it |
| FifoQueues.StrandedForever | internal/broker/sqs/fifo.go:372-376 | the same over every sequence of such regions, for any server behaviour |
| FifoQueues.GroupedSnoc | internal/broker/sqs/fifo.go:299-347 | grouping a reply message by message gives each group its own messages in arrival order |
| FifoBroker.NormaliseFields | internal/broker/sqs/fifo.go:69-107 | exactly which configurations are refused and why, and every setting of the others: kept in range, raised or lowered to it, or its default |
| FifoBroker.RequestIsLargest | internal/broker/sqs/fifo.go:271-279 | a batch request is the largest number that neither the batch size, the caller's limit nor a positive number of available groups forbids |
| FifoBroker.RequestSizes | internal/broker/sqs/fifo.go:97-107 | for every configuration, batch requests ask for 1 to 10 messages if and only if the prefetch is at least 1; normalising is idempotent |
| FifoBroker.Broker.constructor | internal/broker/sqs/fifo.go:69-135 | a broker starts with a normalised configuration and no groups |
| FifoBroker.Broker.GetMessagesFromInternalQueues | internal/broker/sqs/fifo.go:365-395 | the loop takes one head from each of at most maxMessages ready groups, marks them, leaves the rest, and stops short only when no ready group is left |
| FifoBroker.Broker.AddMessagesToGroup | internal/broker/sqs/fifo.go:398-428 | the map afterwards: the first message is being handed out, the others are queued behind it in order, other groups unchanged |
| FifoBroker.Broker.MarkGroupAsProcessing | internal/broker/sqs/fifo.go:639-656 | the flag is set, creating the group when unknown; queue and other groups unchanged |
| FifoBroker.Broker.MarkGroupAsAvailable | internal/broker/sqs/fifo.go:659-683 | a known group with an empty queue is not processing afterwards; one with queued messages keeps flag and queue; an unknown one stays unknown, and all others are unchanged |
| FifoBroker.Broker.AcknowledgeMessage | internal/broker/sqs/fifo.go:431-457 | a failed delete changes nothing; after a successful one a known group with an empty queue is free, one with queued messages is as it was, and all others are unchanged |
| FifoBroker.Broker.GetAvailableGroups | internal/broker/sqs/fifo.go:533-636 | returns exactly the groups that are not processing; only when there is none does the probe run and change the map |
| FifoBroker.Broker.Probe | internal/broker/sqs/fifo.go:567-631 | the map and the reported groups after a probe reply of any length; a message is stored, creating its group, unless the group is processing or the body does not decode |
| FifoBroker.Broker.SplitByGroup | internal/broker/sqs/fifo.go:299-347 | the grouping loop yields each group's well-formed messages in arrival order |
| FifoBroker.Broker.AcceptBatch | internal/broker/sqs/fifo.go:299-361 | for every order of the groups: one message per distinct group returned, the others queued, other groups unchanged |
| FifoBroker.Broker.AddAll | internal/broker/sqs/fifo.go:349-361 | the loop over the groups does that for each of them exactly once |
| FifoBroker.Broker.AcceptSingle | internal/broker/sqs/fifo.go:213-260 | the group is marked even when the body does not decode, which is an error; a message without group is dropped |
| FifoBroker.Broker.Fetch | internal/broker/sqs/fifo.go:183-297 | a receive in either mode, with the exact number of messages it asks SQS for: one in single mode, else the least of batch size, limit and a positive number of available groups |
| FifoBroker.Broker.ReceiveMessages | internal/broker/sqs/fifo.go:163-180 | SQS is asked if and only if no group is ready, for as many messages as all four limits allow; otherwise the internal queues give a non-empty result |
| PoolOwnership.RunOwned | internal/pool/python/pool.go:415-468 | over every interleaving each process id occurs at most once across the idle list and the goroutines holding one, although the monitor recycles busy processes and stale ids come back |
| PoolOwnership.NoSharedProcess | internal/pool/python/pool.go:262-296 | no two goroutines ever run tasks on the same process, and a running process is not idle |
| PoolQuota.QuotaKept | internal/pool/python/pool.go:534-552 | in every run no process exceeds MaxTasksPerProcess, and a live process on the idle list is below it |
| PoolQuota.RunQuota | internal/pool/python/pool.go:584-598 | the invariant behind it: a process between its last task and the idle list is judged on an up-to-date snapshot or is no longer live |
| PoolLedger.RunBooks | internal/pool/python/pool.go:359-402 | at every step: Starting and Stopping count the creations and recycles in progress, Idle + Busy - Total and Total - live are given by the recycles and insertions under way and done |
| PoolLedger.BalanceIff | internal/pool/python/pool.go:494-502 | Idle + Busy = Total if and only if completed recycles that matched no state are as many as those in progress that did |
| PoolBalance.QuietBalanceIff | internal/pool/python/pool.go:494-502 | while nobody is recycling, Idle + Busy = Total if and only if every recycle in the run so far found its process idle or busy; otherwise the sum is too large |
| PoolBalance.ImbalanceStays | internal/pool/python/pool.go:522-527 | once lost, the balance is lost in every later state in which nobody is recycling |
| PoolBalance.BalanceIsLost | internal/pool/python/pool.go:284-293 | from every initial state a run in which one task fails, its process is recycled, and then Idle + Busy = Total + 1 with nobody recycling |
| PoolTask.WorkerFails | internal/pool/python/pool.go:262-296 | with nothing live, a worker alone can take a request, start a process, have it fail and recycle it: nothing is live or idle afterwards, and one more recycle is counted in neither state |
| PoolTask.WorkerServes | internal/pool/python/pool.go:262-296 | a worker alone can take a request, run it on the process at the head of the idle list, answer it once with its own task id and return the process to the tail, with one more task, a fresh snapshot and the counters as before |
| PoolTask.WorkerDecides | internal/pool/python/pool.go:284-293 | the only step of a worker deciding on a process recycles one whose snapshot shows it failed, done with all its tasks or idle without any, and returns one without a snapshot |
| PoolLedger.SizeBound | internal/pool/python/pool.go:348-357 | live processes plus creators past the check never exceed twice MaxProcesses |
| PoolOvershoot.CapIsExceeded | internal/pool/python/pool.go:392-394 | from every initial state a run reaches twice MaxProcesses live processes, or MaxProcesses + 1 when MinProcesses is 1 |
| PoolPeak.LargestSize | internal/pool/python/pool.go:348-412 | that number is the maximum over all runs, for every configuration |
| PoolPeak.RunTight | internal/pool/python/pool.go:335-345 | with MinProcesses 1, every live process is idle or in the hands of a goroutine, and live processes and goroutines set on creating one never outnumber the goroutines |
| PoolRouting.ExactlyOneReply | internal/pool/python/pool.go:206-235 | each request is either owed by exactly one goroutine with its channel empty or has exactly one reply; a result carries the request's own task id |
| PoolRouting.RunRouted | internal/pool/python/pool.go:262-296 | the invariant behind it, over every interleaving of takes, replies and failures |
| PoolModel.NormaliseExact | internal/pool/python/pool.go:74-100 | normalisation gives 1 <= Min <= Max and positive limits, and leaves alone exactly the configurations that have them |
| PoolModel.NormaliseFields | internal/pool/python/pool.go:74-100 | every setting after normalisation: kept when usable, else its default, the maximum raised to the minimum |
| PoolModel.RecycleReasons | internal/pool/python/pool.go:534-581 | a process is to be recycled if and only if it has a snapshot in which it failed, did all its tasks, is idle with no task or none within the idle limit, or is past the age limit |
| PoolModel.RecycleBoundaries | internal/pool/python/pool.go:555-572 | exactly at the idle limit and exactly at the age limit it is kept, one second later it is not |
| PoolOperations.TakeExact | internal/pool/python/pool.go:415-452 | the idle lookup discards exactly the stale prefix and takes the first live id; without one it creates at most one process, and fails only at the cap or when the start fails |
| PoolOperations.CreatedManyProcesses | internal/pool/python/pool.go:348-412 | after any number of creations the new processes are fresh, have new ids and the others are as they were |
| PoolOperations.CreatedManyIdle | internal/pool/python/pool.go:396-407 | they are at the end of the idle list in order, and counted as idle and in the total |
| PoolOperations.RecycledKeeps | internal/pool/python/pool.go:471-531 | recycling removes one process for good and leaves all other processes and snapshots as they were |
| PoolOperations.RefilledFresh | internal/pool/python/pool.go:335-345 | a refill adds only fresh idle processes with new ids and leaves those there untouched |
| PoolOperations.JudgedSwept | internal/pool/python/pool.go:323-329 | recycling during a sweep does not change how the processes still to be visited are judged |
| PoolRefinement.TakesWhole | internal/pool/python/pool.go:415-452 | whatever the idle lookup does when uninterrupted, in any pool, one goroutine of the interleaved model can do by its own steps, ending with the same contents and the same process or refusal |
| PoolRefinement.ReturnsWhole | internal/pool/python/pool.go:455-468 | so it is for returning a process to the end of the idle list |
| PoolRefinement.Creates | internal/pool/python/pool.go:348-412 | for creating one: map, snapshot, idle list and counters |
| PoolRefinement.Restores | internal/pool/python/pool.go:335-345 | for restoring the minimum, whichever starts fail |
| PoolRefinement.RecyclesWhole | internal/pool/python/pool.go:471-531 | for recycling a process in any state, or an unknown one |
| PoolRefinement.ChecksWhole | internal/pool/python/pool.go:316-332 | and for a whole sweep of the monitor in any order, with the refills in it and after it |
| PoolRefinement.BootsWhole | internal/pool/python/pool.go:131-153 | and for Start, however many processes can be created: with all of them the goroutine becomes the monitor, else it halts |
| PoolRefinement.HaltedStays | internal/pool/python/pool.go:141-146 | after a Start that failed there is never a monitor |
| PoolRefinement.HasContents | internal/pool/python/pool.go:17-40 | every reachable state of the interleaved model has such contents, so that these operations can start in any of them |
| ProcessPool.GoneOneMore | internal/pool/python/pool.go:316-332 | judging one more process adds it to those recycled exactly when it meets the recycling test |
| ProcessPool.Pool.constructor | internal/pool/python/pool.go:74-128 | a pool starts empty with a normalised configuration |
| ProcessPool.Pool.Start | internal/pool/python/pool.go:131-153 | the initial processes are created one by one up to the first that cannot be; Start succeeds if and only if there were MinProcesses of them |
| ProcessPool.Pool.CreateProcess | internal/pool/python/pool.go:348-412 | succeeds if and only if the cap is not reached and the start succeeds; then the process is in map, snapshots, idle list and counters, else nothing changed |
| ProcessPool.Pool.GetIdleProcess | internal/pool/python/pool.go:415-452 | terminates and does what `TakeExact` describes, within the cap |
| ProcessPool.Pool.ReturnProcess | internal/pool/python/pool.go:455-468 | the id goes to the end of the idle list and one process moves from busy to idle |
| ProcessPool.Pool.EnsureMin | internal/pool/python/pool.go:335-345 | creates some of the missing processes, all of them when starts succeed, and changes nothing else |
| ProcessPool.Pool.Remove | internal/pool/python/pool.go:471-527 | the process leaves map, idle list and snapshots, and the counters lose it once |
| ProcessPool.Pool.Unlist | internal/pool/python/pool.go:485-493 | the loop removes the first occurrence of the id from the idle list and nothing else |
| ProcessPool.Pool.RecycleProcess | internal/pool/python/pool.go:471-531 | an unknown id changes nothing; a known one is removed and some of the then missing processes are created, all of them when starts succeed |
| ProcessPool.Pool.CheckAndRecycle | internal/pool/python/pool.go:316-332 | for every map order a process is gone if and only if its snapshot shows it failed, done with all its tasks, idle for too long or too old; the others are untouched, and with starts succeeding the pool ends with the kept processes or Min, whichever is more, between Min and Max |
| ProcessPool.Pool.SweepAll | internal/pool/python/pool.go:316-329 | the loop of the sweep removes exactly the processes with one of these four reasons in the snapshot they had at the start |
| PythonProcess.ScannedUnique | internal/pool/python/process.go:324-351 | the outcome of a scan is determined, and a found result is one for the task that was sent |
| PythonProcess.ScannedExact | internal/pool/python/process.go:324-351 | what ends a scan, in terms of decoding alone: the first line before the deadline that decodes to a result for this task, whatever its status; else a read error; else the deadline |
| PythonProcess.PrintedIsFound | internal/pool/python/process.go:341-345 | every result a process prints for the task before the deadline is found, unless another one for it came first |
| PythonProcess.Process.constructor | internal/pool/python/process.go:85-155 | a new process is starting and has completed no task |
| PythonProcess.Process.ScanOutput | internal/pool/python/process.go:324-351 | the loop finds a result if and only if some line before the deadline decodes to one for this task, and then the first of them, whatever its status; else it reports a read error, or nothing by the deadline |
| PythonProcess.Process.ExecuteTask | internal/pool/python/process.go:293-397 | a result is returned if and only if one for this task is decoded before the deadline; every result printed for it first is returned as it was, counts the task and makes the process idle; a broken stream or a timeout fails the process; an encode or write error leaves it busy |
| TaskLedger.RunLedger | internal/worker/factory.go:143-245 | in every interleaving received = succeeded + failed + executions not counted yet |
| TaskLedger.StatesAdvance | internal/worker/factory.go:188-245 | with distinct task ids, states only move pending, running, then success or error for good |
| TaskLedger.RegressesIff | internal/worker/factory.go:172-236 | without that assumption: a step, of any kind and from any state, moves a task state back or changes a terminal one if and only if it stores a delivery over an entry past pending, or starts or ends an execution over an entry that is further or ended otherwise |
| TaskLedger.RepeatedIdRegresses | internal/worker/factory.go:190-194 | a run in which a task id is delivered twice: the start of the second execution takes an acknowledged, successful task back to running |
| TaskLedger.AckedOnce | internal/worker/factory.go:214-244 | in every run, repeated ids included, each delivery is acknowledged at most once, only if it was decodable, and only by its finished execution |
| TaskLedger.AckedLate | internal/worker/factory.go:214-244 | with distinct task ids, the task of an acknowledged delivery is terminal |
| TaskLedger.DrainedAcksDecodable | internal/worker/factory.go:143-185 | in every run, repeated ids included, when nothing is left to do the acknowledged deliveries are exactly the decodable ones and received = succeeded + failed |
| TaskLedger.FailedTaskIsAcked | internal/worker/factory.go:197-219 | a run in which the pool fails and the message is acknowledged |
| TaskLedger.RunInv | internal/worker/factory.go:122-245 | with distinct task ids, deliveries, executions, task states and acknowledgements agree in every reachable state |
| TaskLedger.RunBooks | internal/worker/factory.go:143-185 | in every run each decodable delivery the loop is done with has exactly one execution, and the finished ones are exactly the acknowledged ones |
| TaskWorker.JobsAreDecodable | internal/worker/factory.go:151-181 | the tasks started for a batch are its decodable messages and no others, each with its own payload, in order |
| TaskWorker.PendingIsLast | internal/worker/factory.go:172-174 | after a batch the entry of a task id has the name, args, kwargs, queue and retries of the last payload with that id, the group of its message, state pending and no result |
| TaskWorker.PendingElsewhere | internal/worker/factory.go:172-174 | and that of an id not in the batch is untouched |
| TaskWorker.WorkerBalances | internal/worker/factory.go:176-245 | on the worker's own fields received = succeeded + failed + jobs not counted yet, after any sequence of operations |
| TaskWorker.JobIsListed | internal/worker/factory.go:172-174 | a task being executed has an entry in the task map, after any sequence of operations |
| TaskWorker.DefaultWorker.constructor | internal/worker/factory.go:50-66 | a worker starts with nothing recorded, counted, started or acknowledged |
| TaskWorker.DefaultWorker.ProcessTasks | internal/worker/factory.go:143-185 | a failed receive changes nothing; otherwise the decodable messages, and only they, are recorded, counted and started, as a run of the interleaved model |
| TaskWorker.DefaultWorker.ExecuteTask | internal/worker/factory.go:188-245 | what the entry holds after a success, another result or a pool error, field by field, all else in it and all other entries as they were; one of two counters grows by one, and the message is acknowledged once, as a run of the interleaved model |
| TaskWorker.DefaultWorker.ConcludeTask | internal/worker/factory.go:198-240 | a success stores the value alone, another result its own value, error and traceback, a pool error the error alone; the state and the counter go with it and everything else in the task map is untouched |
| CeleryCodec.ExtractBuilt | internal/protocol/celery/json.go:33-169 | extracting from the built Celery message gives the payload back, with nil args and kwargs made empty |
| CeleryCodec.DecodeMarshalled | internal/protocol/celery/json.go:187-193 | the payload that arrives when the built message travels as JSON text: only the retry count can change, to the nearest float64 |
| CeleryCodec.CeleryRoundTripIff | internal/protocol/celery/json.go:45-60 | that trip keeps the payload if and only if float64 represents the retry count exactly, in particular up to a magnitude of 2^53 |
| CeleryCodec.FirstLoss | internal/protocol/celery/json.go:45-60 | the retry count 2^53 + 1 arrives as 2^53 |
| CeleryCodec.DispatchIff | internal/protocol/celery/json.go:187-193 | an input is treated as a Celery message if and only if it is null or an object that fits the Celery fields; then it is decoded by extraction |
| CeleryCodec.FallbackIff | internal/protocol/celery/json.go:195-217 | the internal format is accepted exactly for task objects with a mistyped Celery field |
| CeleryCodec.EncodedTaskRejected | internal/protocol/celery/json.go:172-193 | whatever EncodeTask builds, DecodeTask rejects for want of a task name |
| CeleryCodec.InternalRoundTrip | internal/protocol/message/message.go:73-95 | the internal task message itself carries the payload unchanged, nil args and kwargs included |
| CeleryCodec.ResultRoundTrip | internal/protocol/message/message.go:123-147 | a result survives encoding and decoding, absent optional fields included |
| CeleryFields.CeleryIff | internal/protocol/celery/json.go:24-30 | a JSON object is taken for a Celery message if and only if its five Celery fields, where present and not null, have their types |
| CeleryFields.CeleryRefused | internal/protocol/celery/json.go:33-92 | exactly when a Celery message is refused and with which error: no task name, no id, and each way the body can fail |
| CeleryFields.TakenFields | internal/protocol/celery/json.go:94-114 | from any accepted Celery message: name and id from the headers, args and kwargs from the body, empty when of the wrong type |
| CeleryFields.TakenQueue | internal/protocol/celery/json.go:62-70 | the queue is the routing key of the delivery info, empty when either is missing or of the wrong type |
| CeleryFields.RetryCount | internal/protocol/celery/json.go:45-60 | the retry count is zero without the header or with one of another type, a number truncated toward zero, the integer a 64-bit numeral denotes, and zero for any other string |
| CeleryFields.TakenRetries | internal/protocol/celery/json.go:45-60 | the same for the header as it stands in the JSON text, integers up to 2^53 kept exactly |
| CeleryFields.PrintedRetries | internal/protocol/celery/json.go:53-58 | every 64-bit integer printed in decimal, with a plus sign or not when it is not negative, is decoded to itself |
| CeleryFields.InternalFields | internal/protocol/celery/json.go:195-217 | an object that is no Celery message is accepted if and only if it is a task message whose fields have their types, and gives exactly these fields |
| CeleryFields.ResultFields | internal/protocol/celery/json.go:235-257 | the same for the lines decoded as results |
| CeleryFields.EncodedKeys | internal/protocol/message/message.go:98-121 | an optional field of a result is sent if and only if it is not empty, the others always |
| JsonModel.ToDoubleExact | internal/protocol/celery/json.go:49-52 | an integer survives the conversion to float64 exactly when it is a multiple of the spacing there |
| JsonModel.NearestDouble | internal/protocol/celery/json.go:49-52 | the conversion gives the nearest multiple of the spacing, of two equally near ones the even one |
| JsonModel.UlpIsPower | internal/protocol/celery/json.go:49-52 | the spacing is that of 53 significant bits |
| Numerals.AtoiIff | internal/protocol/celery/json.go:53-58 | the strings read as numbers are exactly the decimal numerals of 64-bit integers, with optional sign and leading zeros, each read as the integer it denotes |

## Left out

- Connections and plumbing of the AWS SDK, `Connect`, `Close`, `PublishMessage`, `ExtendVisibilityTimeout`: only the effects of receive and delete on the queue are modelled.
- A dead-letter queue, which would take undecodable messages out of the way after some time: not part of this model.
- FifoPoison.PoisonBlocks: in batch mode the converse is not stated; it depends on how many other groups are available at the time, since that bounds the request.
- Visibility expiry of messages the broker holds: assumed not to happen before they are deleted, although a failed visibility change after a probe can cause it.
- A negative `maxMessages`: it makes the Go code panic when it allocates the result, so it is a nat here.
- Message attributes, deduplication ids, receipt handles and `LastAccess`; the SQS sequence number stands for the message id.
- `MaxMessages`, `VisibilityTimeout` and `WaitTimeSeconds` defaults of the broker configuration: nothing modelled depends on them.
- Operating system processes, pipes, signals, the background readers of stdout and stderr, graceful stop: a process is an arbitrary stream of lines, an end of stream, a read error or a deadline.
- PythonProcess.Process.Start: whether the operating system starts the process is a parameter; only the effect on the state is stated.
- PythonProcess.Process.Stop: only the effect on the state is stated, not the termination of the operating system process.
- Shutdown of the pool and of the worker, and cancellation of contexts: a goroutine that stops early is a run that ends.
- Queue capacity of the pool's task queue and the caller giving up on a reply: the reply channel has room for one reply, which is all that is ever sent.
- The lock held by `recycleProcess` between its two tests of the process state is split into two steps: the interleavings proved about include more than Go allows.
- The processes in `ProcessPool` are represented by their statistics, so aliasing between pool and process objects is modelled in `PoolMachine` only.
- The unsynchronised counters of the worker are taken to be atomic; lost updates are not modelled.
- Timestamps, metrics, logging, the process id and the retry limit in task records: nothing reads them.
- The text of errors from the pool: any string.
- JSON text, base64 (section 4 of RFC 4648) and UUID generation: one abstract pair of functions, used only where they are inverse on the body at hand.
- Case-insensitive matching of JSON field names, duplicate keys, and integers written with a fraction or exponent, as encoding/json treats them.
- Numbers nested in args and kwargs, and fractions in headers, are taken to be float64 values already.
- CeleryCodec.Extract: a retry count outside 64 bits converts as on amd64; Go leaves it to the implementation.
- `Ping`, `Pong`, `Stop` messages and `ParseMessage`: single tag tests, which would only add easy members.
- `scripts/python/worker_process.py`: it wraps classes that are not part of the repository.
- `RetryBackoff`, `Concurrency`, `HeartbeatInterval`: declared but unused by the modelled code.
