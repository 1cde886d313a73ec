# Shared pipes, the scheduler and host_exec: a verified model

The system runs WASIX programs on a pool of workers. Two concurrent cores and the codec between
them are modelled here, and what they promise is proved for every run.

**Shared-memory pipes** (`src/pipes`). One 16 MiB shared byte array is carved up by a lock-free
allocator (`PipePool`). Each region holds a 20-byte header of five 32-bit words and a ring of bytes.
`Ring` has the position arithmetic. `PipeProtocol` makes the writer, the reader and the transmit ends
programs that perform one atomic access at a time, in any order; `PipeSafety` and `PipeEnds` hold the
invariant, `PipeTheorems`, `PipeEndOfLife` and `PipeRace` what follows, and `PipeCalls` follows each
call to its answer. `PipeWorld` puts any number of pipes into the one array, seen through
`SharedBytes`, and shows that it refines a map of byte queues. `SharedPipe` is the code itself, working
on the array without interference.

**The scheduler** (`src/tasks/scheduler.rs`, `src/tasks/thread_pool_worker.rs`). `Scheduler` is the
actor; `SchedulerSystem` adds workers and first-in-first-out channels, with `SchedulerSafety`,
`SchedulerTurns` and `SchedulerTheorems` on top; `SchedulerJobs` follows each job from its request to
its end, and `SchedulerProgress` shows that it can always get there. `Drain` is its message loop and
shutdown. `HostExec` has the three tables of the host_exec protocol, `ResponseBuffer` the shared buffer
a blocked worker is answered through, and `HostExecSystem` the whole protocol of readers, channels,
tables and callbacks, with `HostExecSafety`, `HostExecSteps`, `HostExecTurns` and `HostExecTheorems`;
`HostExecStream` tells what the reader gets for what the handler did, and `HostExecRace` is about
notifies that come late. `NodeWorkers` is the Node.js wrapper that creates the workers.

**The codec** (`src/tasks`). `JsObject` models message objects, `ForkPipes` the indexed fields of a
pipe table, `SchedulerCodec`, `PayloadCodec` and `WorkerCodec` the three encodings, `ForkTable` a
table's whole way to a forked child and `Descriptors` the reconnection at its end.

Machines are total step functions over events: an event that is not enabled changes nothing, `Reached`
folds a list of events, and a theorem about `Reached(events)` holds for every run. A method on a class
or array has the loop or update of the code and is proved equal to a specification function, about
which the theorems are.

## Assumptions

- `Atomics` operations are sequentially consistent (section 25.4 of ECMA-262), and the words of the
  shared arrays are little-endian.
- At most one write and one read are in flight per pipe, since positions are published with plain
  stores. A new transmit end is made from a live one that nobody drops meanwhile. A pipe is larger than
  its header, and at most 2^31 transmit ends are ever made for it.
- `postMessage` and the scheduler's channel deliver everything, in order per sender. Structured cloning
  keeps every field of a message. A module hash is carried as its text.
- Host_exec: one counter issues all ids, so one `Runtime` is in use. A session is read by the worker
  that started it, which stays alive. A worker posts its request and resets its status word in one
  step (`HostExecTheorems.LateResetStrandsReader` shows what a later reset does); entering the wait is
  part of it too, as a notify that finds nobody waiting has no effect. The scheduler stores an answer
  and notifies in two steps, between which workers run. The handler calls
  back only before its promise settles, with messages of at most 65520 bytes.
- The waits of pipe readers have a timeout and may return at any time. The host_exec waits have none:
  they return at once on a nonzero status word, and otherwise on the next notify, whichever answer that
  notify was for.

## Where the code falls short of its promises or its comments

- The header is 20 bytes, as the constant says; a comment at the top of src/pipes/mod.rs gives an older
  layout without the reference count.
- End of file is not final under single-operation interleaving: `PipeRace.EofCanMissAPublishedByte` is a
  run that loses a byte, `PipeTheorems.ReadAnswers` says exactly when end of file loses nothing.
- A host_exec reader does not look at the status word when its wait returns. If it issues a request
  before the notify of its previous answer, that notify can wake it early, on a buffer that does not hold
  its answer: `HostExecRace.StreamCanRepeatAMessage` is a run that delivers a message twice. A wake
  returns the answer to its own request if and only if the status word is nonzero then
  (`HostExecTheorems.WakeIsOwnIffReleased`), and a worker that never returned early, which it could
  ensure by checking that word (`HostExecTheorems.EarlyIffUnguarded`), gets everything promised, whatever
  other workers do.
- A session that was being read when its promise settled reports its exit twice:
  `HostExecTheorems.ExitIsCounted`, with the run `HostExecRace.ExitCanBeReportedTwice`.
- Session ids from 2^31 on fail the check of a blocking read: `HostExecTheorems.ReadsSucceedIffIdFits`,
  with a run for each such id in `HostExecRace.LargeSessionIdsMismatch`.
- After a failed worker creation the Node.js queue never moves again: `NodeWorkers.FlagStuckIffThrew`,
  with the run `NodeWorkers.FlagCanStick`.

## Model

| member | source | states |
|---|---|---|
| PipePool.ReachedInv | src/pipes/pool.rs:65-99 | Over every interleaving of any number of allocators, the granted regions tile the pool from byte 4 up to the offset word, which stays inside the pool |
| PipePool.RegionsAreExclusive | src/pipes/pool.rs:65-99 | Any two granted regions are disjoint and lie within bytes 4 to 16 MiB |
| PipePool.HeadersAligned | src/pipes/pool.rs:65-99 | If all sizes are multiples of four, every offset is, so every header can be viewed as 32-bit words |
| PipePool.DefaultPipesThatFit | src/pipes/pool.rs:65-99 | Exactly 255 default pipes fit: never more, and an allocator with a current offset is refused if and only if all 255 are gone |
| PipePool.RetriesArePaidForByRivals | src/pipes/pool.rs:85-98 | An allocator's failed swaps number at most the regions granted to others: lock freedom |
| PipePool.GrantedIffItFits | src/pipes/pool.rs:72-98 | In every reachable state an allocator that is not disturbed between load and swap is granted the next region if and only if it fits in the 16 MiB; one that was disturbed starts over, and nobody is refused a size that fits |
| PipePool.PoolWord.constructor | src/pipes/pool.rs:124-132 | A new pool starts at offset 4 with nothing granted |
| PipePool.PoolWord.CompareExchange | src/pipes/pool.rs:86-91 | The swap reports the old word and claims the region exactly when the word was as expected |
| PipePool.PoolWord.AllocateFromPool | src/pipes/pool.rs:65-99 | Against any interference, the loop ends after at most one retry per interfering round, returns a region claimed for this call beyond all earlier ones, and refuses only when the size does not fit |
| Ring.SpaceAndDataPartition | src/pipes/mod.rs:316-327 | Free space and data add up to capacity minus one |
| Ring.FreeAndFullSlotsDisjoint | src/pipes/mod.rs:347-371 | The slots a write may fill and the slots a read may empty never overlap, across the wrap |
| Ring.PublishAppends | src/pipes/mod.rs:347-371 | Once the slots behind the write position hold the source bytes, moving the position appends exactly those bytes to the queue |
| Ring.AdvancePops | src/pipes/mod.rs:419-446 | Moving the read position removes exactly the front of the queue |
| Ring.FillingKeepsContents | src/pipes/mod.rs:347-367 | Filling free slots leaves the queue as it is |
| PipeSafety.WriterPublish | src/pipes/mod.rs:369-376 | Publishing keeps the invariant and appends the bytes the call reports, whatever the reader is doing |
| PipeSafety.ReaderAdvance | src/pipes/mod.rs:441-445 | Advancing keeps the invariant and the bytes handed out are the front of the queue, whatever the writer is doing |
| PipeEnds.ReachedInv | src/pipes/mod.rs:200-232 | From a region with arbitrary contents, every run of initialisation, writes, reads, polls, closes and transmit ends keeps the pipe's invariant |
| PipeTheorems.PipeRefinesQueue | src/pipes/mod.rs:316-446 | Every single atomic step of every program, in every reachable state, is a step of a byte queue with logs |
| PipeTheorems.NothingLostOrInvented | src/pipes/mod.rs:330-446 | Accepted bytes are delivered bytes followed by the ring's contents, the ring holds at most capacity minus one, and no unsigned subtraction underflows |
| PipeTheorems.HalfFinishedTransfersAreDisjoint | src/pipes/mod.rs:347-443 | The slots of a half-finished write and of a half-finished read are inside the buffer and disjoint, across both chunks |
| PipeTheorems.WriteAnswers | src/pipes/mod.rs:330-377 | A write takes at most what fits and at least what was promised, a write poll answers at least the room there was; full or broken is reported only when that is so |
| PipeTheorems.ReadAnswers | src/pipes/mod.rs:409-473 | A read returns the front of the queue, at least what was promised, and a read poll answers at least what was there; end of file loses nothing if and only if no write was published since this round loaded the write position |
| PipeCalls.ReadCallIsAnswered | src/pipes/mod.rs:409-473 | From the call of a read to its answer, in any run: a blocking read ends only with data or end of file, another one also with would-block; it returns at least what was queued at the call, would-block or end of file only if that was nothing; a read that does not block, or finds the pipe closed at the call, goes round once |
| PipeCalls.ReadPollIsAnswered | src/pipes/mod.rs:742-769 | A read poll ends readable with at least what was queued at the call, zero only when closed, or pending after exactly 200 empty rounds; it consumes nothing |
| PipeCalls.WriteCallIsAnswered | src/pipes/mod.rs:330-377 | From the call of a write to its answer, in any run: it takes a front part of the source, at least what fitted at the call, or finds the pipe closed, or would block, only if nothing fitted at the call; a pipe closed at the call is always found closed |
| PipeCalls.WritePollIsAnswered | src/pipes/mod.rs:719-728 | A write poll ends writable with at least the room at the call, and pending or broken only if there was none; it changes nothing |
| PipeEndOfLife.PromisesHold | src/pipes/mod.rs:719-769 | What a side has been promised never shrinks until that side's own next transfer, whatever the others do |
| PipeEndOfLife.PolledRoomIsWritten | src/pipes/mod.rs:719-769 | After a write poll answered n, the next write takes at least min(n, length) bytes or finds the pipe closed |
| PipeEndOfLife.PolledDataIsRead | src/pipes/mod.rs:719-769 | After a read poll answered n > 0, the sole reader's next read yields at least min(n, length) bytes |
| PipeEndOfLife.UninterruptedEofIsFinal | src/pipes/mod.rs:409-417 | If a read's loads are not interleaved with anything, end of file implies closed and every accepted byte delivered |
| PipeEndOfLife.CountIsLiveEnds | src/pipes/mod.rs:131-141 | The count word is the number of ends holding a reference; exactly one drop has closed the pipe if none does, and no drop otherwise |
| PipeEndOfLife.DropClosesIffLast | src/pipes/mod.rs:480-492 | A drop goes on to close the pipe if and only if it gave up the last reference |
| PipeEndOfLife.ReconnectNeverCloses | src/pipes/extract.rs:113-119 | Whatever happens between the new end's increment and the old end's decrement, the old end's drop is not the last one while the new end is live: it lowers the count by one, leaves the flag alone and does not go on to close |
| PipeEndOfLife.AcceptedIsFinalAfterLastDrop | src/pipes/mod.rs:480-492 | Once the last drop has decided to close, no byte is ever accepted again |
| PipeEndOfLife.EofAfterLastDropIsFinal | src/pipes/mod.rs:409-473 | If the last drop had closed the pipe, or decided to, before a read began, end of file from that read means everything accepted was delivered, so a second end of file can be trusted |
| PipeRace.EofCanMissAPublishedByte | src/pipes/mod.rs:409-417 | A concrete run in which end of file is answered while a published byte is undelivered |
| SharedBytes.PokedWordReads | src/pipes/mod.rs:144-154 | A stored 32-bit word reads back through the byte array |
| SharedBytes.AccessIsExec | src/pipes/mod.rs:144-154 | An access to the shared array at a pipe's offset is, seen through its view, the access to the pipe's own memory |
| SharedBytes.AccessStaysInside | src/pipes/pool.rs:103-121 | Such an access changes no byte outside the pipe's region |
| PipeWorld.StepIsIsolated | src/pipes/pool.rs:65-99 | A step of one pipe in the shared array is that pipe's own step and leaves every other pipe's header and data alone |
| PipeWorld.CreateIsIsolated | src/pipes/mod.rs:200-232 | Creating a pipe leaves every existing pipe alone, keeps the regions apart, and changes the world exactly if the pipe is larger than its header and fits |
| PipeWorld.CreatedIffItFits | src/pipes/pool.rs:65-99 | A pipe larger than its header appears at the next free byte, which moves on by its size, if it fits in what is left of the 16 MiB; otherwise nothing changes |
| PipeWorld.DefaultPipesAreCreated | src/pipes/mod.rs:195-232 | In any run whose creations are all of default size there are min(attempts, 255) pipes, one behind the other from byte 4 on |
| PipeWorld.EveryPipeRunsAlone | src/pipes/pool.rs:65-99 | In any run over the array, each pipe is in a state of some run of that pipe alone, so every theorem about one pipe holds for it |
| PipeWorld.WorldRefinesQueues | src/pipes/pool.rs:65-99 | Any run of create and pipe steps refines a map from offset to byte queue: its keys are exactly the initialised pipes, a pipe enters it with the empty queue by its own last initialising step, and a pipe's step changes no other queue |
| SharedPipe.InitialiseHeader | src/pipes/mod.rs:200-232 | Whatever the region held, it becomes an open, empty pipe with one transmit end |
| SharedPipe.SharedPipeTx.FromPoolOffset | src/pipes/mod.rs:131-141 | A further end adds one to the count and touches nothing else |
| SharedPipe.SharedPipeTx.FreeSpace | src/pipes/mod.rs:316-327 | The computed space is the ring's free space, without underflow |
| SharedPipe.SharedPipeTx.WriteData | src/pipes/mod.rs:330-377 | The result is decided by flag, length and space, the queue grows by exactly the reported prefix, and no byte outside the region changes |
| SharedPipe.SharedPipeTx.Close | src/pipes/mod.rs:302-307 | Only the closed flag changes |
| SharedPipe.SharedPipeTx.Drop | src/pipes/mod.rs:480-492 | The count goes down by one and the pipe is closed if it was one |
| SharedPipe.SharedPipeRx.DataAvailable | src/pipes/mod.rs:395-406 | The computed length is the length of the queue |
| SharedPipe.SharedPipeRx.TryRead | src/pipes/mod.rs:409-446 | The buffer receives the front of the queue, which loses exactly that; an empty queue is end of file or would-block by the flag |
| Scheduler.MoveWorker | src/tasks/scheduler.rs:866-871 | The named worker moves to the back of the other queue; an absent one changes nothing |
| Scheduler.SchedulerState.StartWorker | src/tasks/scheduler.rs:843-863 | A new worker has the next id and is sent every cached module first |
| Scheduler.SchedulerState.NextAvailableWorker | src/tasks/scheduler.rs:822-841 | The front idle worker, else a new one |
| Scheduler.SchedulerState.PostMessage | src/tasks/scheduler.rs:805-820 | The payload is posted once, and the worker goes to the back of busy or idle as the payload blocks or not |
| Scheduler.SchedulerState.ExecuteMessage | src/tasks/scheduler.rs:282-369 | One message changes pool, cache and posts as the specification says, for every message that reaches the actor in a run |
| Scheduler.InsertUpdatesMap | src/tasks/scheduler.rs:288-302 | Inserting into the ordered module list updates the map it stands for and keeps it ordered |
| SchedulerTurns.ReachedInv | src/tasks/scheduler.rs:350-369 | In every reachable state of scheduler, channels and workers each worker is accounted for: its queue, its unfinished blocking job and its notices in flight fit together |
| SchedulerTurns.BusyNoticeIsRedundant | src/tasks/scheduler.rs:350-358 | A busy notice never moves a worker, which is already among the busy ones |
| SchedulerTheorems.OneBlockingJobPerWorker | src/tasks/scheduler.rs:805-820 | No worker ever has two unfinished blocking jobs |
| SchedulerTheorems.DrainedWorkersAreIdle | src/tasks/thread_pool_worker.rs:35-46 | A worker with nothing to do and no notice in flight is idle if it is known at all |
| SchedulerTheorems.BlockingJobsGoToFreeWorkers | src/tasks/scheduler.rs:822-841 | A blocking job goes to the front idle worker, to a new one only if none is idle; the worker has nothing unfinished and nothing in flight, receives the very job that was requested behind at most its priming, and is busy from then on |
| SchedulerTheorems.BurstGoesToDistinctWorkers | src/tasks/scheduler.rs:805-863 | Blocking jobs assigned with no idle notice between them go to pairwise distinct workers |
| SchedulerTheorems.CachesAgree | src/tasks/scheduler.rs:288-302 | Folding the notices sent to any live worker gives exactly the scheduler's cached modules |
| SchedulerTheorems.JobsFindModulesCached | src/tasks/scheduler.rs:843-863 | When a worker comes to a job, the notices it has handled add up to all modules cached when the job was posted |
| SchedulerJobs.RequestsAreConserved | src/tasks/scheduler.rs:282-369 | In every run each job requested, by a client or from a worker, is in exactly one place, as often as it was requested and under its own id and kind: in the mailbox, not yet forwarded, waiting at a worker, under way or done |
| SchedulerJobs.JobsRunInOrder | src/tasks/thread_pool_worker.rs:75-120 | In every run the blocking jobs a worker was sent are those assigned to it in the trace, in order: first the finished ones, then the one under way, then the waiting ones; async jobs keep their order too |
| SchedulerJobs.CacheIsWhatWasExecuted | src/tasks/scheduler.rs:288-302 | The module cache of every run is the fold of the CacheModule messages executed in it |
| SchedulerProgress.EverythingCanBeDone | src/tasks/scheduler.rs:805-841 | No reachable state is stuck: without any new request, steps of scheduler, channels and workers lead to a state with nothing waiting, on its way or running, and every worker idle |
| SchedulerProgress.QuietMeansAllDone | src/tasks/thread_pool_worker.rs:75-120 | In such a state every job has been done exactly as often as it was requested |
| Drain.MessageLoop.Step | src/tasks/scheduler.rs:135-144 | One message leaves the front of the channel and is executed, failing or not; what it sends goes to the back |
| Drain.MessageLoop.DrainChannel | src/tasks/scheduler.rs:129-139 | The drain ends with an empty channel and everything taken out executed in order |
| Drain.MessageLoop.Run | src/tasks/scheduler.rs:123-148 | When the loop ends, everything sent but Close has been executed in the order sent, on either side of Close, and every piece of work exactly as often as it occurs in what arrived or was sent in turn |
| Drain.StepAccounted | src/tasks/scheduler.rs:132-138 | Taking out one message keeps executed plus still to come equal to what arrived |
| ResponseBuffer.HostExecBuffer.SendReadResponse | src/tasks/scheduler.rs:676-728 | The shared buffer becomes the specified image by exactly these accesses in this order: type, value, session, data, status, notify |
| ResponseBuffer.HostExecBuffer.SendTryReadNoData | src/tasks/scheduler.rs:734-762 | Only session and status change, to no data, in that order, and then the notify comes |
| ResponseBuffer.HostExecBuffer.SendPollResponse | src/tasks/scheduler.rs:764-791 | Only session and status change, to ready or not, in that order, and then the notify comes |
| ResponseBuffer.HostExecBuffer.TakeRead | src/runtime.rs:398-457 | The blocking reader's loads and byte loop decode the buffer as specified |
| ResponseBuffer.HostExecBuffer.TakeTryRead | src/runtime.rs:571-627 | So do the non-blocking reader's, which do not look at the session |
| ResponseBuffer.SessionTagRoundTrip | src/runtime.rs:403-412 | A session id survives truncation to 32 bits and sign extension if and only if it is below 2^31 or in the top 2^31 of the range |
| ResponseBuffer.DataRoundTrip | src/tasks/worker_handle.rs:18 | Data survives if and only if what exceeds 65520 bytes is zero |
| ResponseBuffer.ReadRoundTrip | src/tasks/scheduler.rs:689-712 | Whatever the buffer held, a blocking read returns what was stored if and only if session id and data fit, and a mismatch if and only if the id does not |
| ResponseBuffer.TryReadRoundTrip | src/runtime.rs:571-627 | A non-blocking read returns what was stored if and only if the data fits, and nothing when told so |
| ResponseBuffer.PollRoundTrip | src/runtime.rs:667-680 | A poll returns the answer that was stored |
| ResponseBuffer.ReplyIsCompleteAtStatus | src/tasks/scheduler.rs:689-721 | At every point of the accesses of a reply, the status word is as it was or the buffer already is the whole reply; the notify comes after that |
| ResponseBuffer.StatusIsCompleteAtStatus | src/tasks/scheduler.rs:734-791 | The same for the answers that are only a status |
| HostExec.ExitCodeRoundTrip | src/tasks/scheduler.rs:508-510 | An exit code packed into four bytes for the mailbox is unpacked unchanged |
| HostExec.HostExecTables.OnOutput | src/tasks/scheduler.rs:923-972 | onStdout and onStderr answer the parked read or queue the message |
| HostExec.HostExecTables.OnSpawnMessage | src/tasks/scheduler.rs:1059-1179 | The spawn callbacks queue the message, then give a parked read the front of the queue |
| HostExec.HostExecTables.OnSettled | src/tasks/scheduler.rs:421-466 | The result is stored, 1 for a rejection, and also sent to a parked read |
| HostExec.HostExecTables.TakeNext | src/tasks/scheduler.rs:543-565 | A non-blocking read takes the front of the queue, else the result and the queue's entry, else nothing |
| HostExec.HostExecTables.HostExecRead | src/tasks/scheduler.rs:478-502 | A blocking read takes the same or is parked |
| HostExec.HostExecTables.HostExecPoll | src/tasks/scheduler.rs:566-581 | Ready if and only if a message is queued or a result is stored; nothing is consumed |
| HostExec.EmitEffect | src/tasks/scheduler.rs:923-972 | Both delivery paths do the same to the session and nothing to any other: the message goes to the parked read, or to the back of the queue; and the output it decodes to is of the callback's kind and carries its bytes, child id and signal |
| HostExec.SettleEffect | src/tasks/scheduler.rs:421-466 | Settling stores the promise's own code, or 1 for a rejection, keeps the queue and frees the parked read with that code |
| HostExec.TakeEffect | src/tasks/scheduler.rs:478-502 | Output is taken before the exit, and other sessions are untouched |
| HostExecTurns.ReachedInv | src/tasks/scheduler.rs:370-514 | In every reachable state of readers, channels, tables and callbacks, late notifies included, the protocol is in order for every worker that never returned early, and the tables for every session |
| HostExecTheorems.WakeIsOwnIffReleased | src/runtime.rs:389-404 | Until a worker returns early, its wake returns the answer to its own request if and only if the status word is nonzero, that is, if and only if the request is neither on its way nor parked |
| HostExecTheorems.EarlyIffUnguarded | src/runtime.rs:393-396 | A worker has returned early exactly in the runs in which one of its wakes found the status word zero |
| HostExecTheorems.StreamIsOrdered | src/tasks/scheduler.rs:478-514 | Per session whose reader never returned early, what the handler produced is what was delivered, then at most one reply under way, then the queue: nothing lost, duplicated or reordered |
| HostExecTheorems.UnderWayIsReal | src/tasks/scheduler.rs:503-514 | The reply under way is a completion in the mailbox or a buffer that decodes to it, and the other way round |
| HostExecTheorems.ParkedReadHasNothingToRead | src/tasks/scheduler.rs:496-501 | In every run, a parked read implies an empty queue and no stored result, and belongs to its session's reader; no reply is under way unless that reader returned early |
| HostExecTheorems.ExitComesLast | src/tasks/scheduler.rs:422-467 | Once an exit is under way or received, everything produced has been delivered, and every exit carries the code of the promise |
| HostExecTheorems.ExitIsCounted | src/tasks/scheduler.rs:486-496 | A settled session's exits received, under way and stored are exactly one, or two if a read was parked when it settled |
| HostExecTheorems.ReadsSucceedIffIdFits | src/runtime.rs:403-412 | An answered blocking read returns an output if and only if its session id fits; otherwise it is a mismatch |
| HostExecTheorems.EarlyReadsSucceed | src/runtime.rs:308-361 | Ids come from one counter, so no answered blocking read fails before 2^31 requests |
| HostExecTheorems.TryReadsNeverFail | src/runtime.rs:528-630 | An answered non-blocking read always ends with an output or with nothing |
| HostExecTheorems.PolledReadSucceeds | src/tasks/scheduler.rs:543-581 | If the reader's last poll said ready, its next answered read returns an output, whatever the handler and other workers do meanwhile |
| HostExecTheorems.OnlyReadsConsume | src/tasks/scheduler.rs:566-581 | No event but a handled read of that session makes a ready session unready |
| HostExecTheorems.BlockedReaderIsParked | src/tasks/scheduler.rs:496-501 | With no message on the way, an unanswered reader is parked, has received everything produced, and has received all exits due |
| HostExecTheorems.LateResetStrandsReader | src/runtime.rs:370-396 | A status reset after the answer hides it, and no message is left that could bring another |
| HostExecStream.ReaderGetsTheCalls | src/tasks/scheduler.rs:923-1179 | In every run the outputs a reader has received are, in order, one for each of the handler's callbacks with its kind, bytes, child id and signal, and after them only exits with the settled code; the callbacks not received yet are the outputs still coming, in order |
| HostExecStream.ExitsAreTheSettledOne | src/tasks/scheduler.rs:449-466 | In every run an exit that was received, is under way or is stored is the code the promise was resolved with, or 1 if it was rejected |
| HostExecStream.RequestsAreAnswered | src/tasks/scheduler.rs:478-581 | In every reachable state, handling a poll answers whether there is anything and takes nothing; handling a read answers with the next output, and with none a non-blocking read is told so and a blocking one is parked unanswered |
| HostExecRace.PromptWorkersAreNeverEarly | src/tasks/scheduler.rs:710-721 | A worker whose notifies all come before its next request never returns early |
| HostExecRace.LateNotifyWakesEarly | src/runtime.rs:389-396 | Whenever a request is issued before the notify of the previous answer, that notify can wake the worker with its status word zero |
| HostExecRace.LateNotifyRepeatsTheAnswer | src/runtime.rs:389-457 | From every state with an answered blocking read and its notify outstanding, a run continues in which the reader logs that answer, output or exit, twice |
| HostExecRace.StreamCanRepeatAMessage | src/tasks/scheduler.rs:710-721 | A concrete run delivers twice what the handler produced once |
| HostExecRace.ExitCanBeReportedTwice | src/tasks/scheduler.rs:421-447 | For every exit code, a run in which the reader is told it twice |
| HostExecRace.LargeSessionIdsMismatch | src/runtime.rs:403-412 | For every session id that does not fit, a run in which a blocking read of it has its answer and fails |
| NodeWorkers.CreationQueue.Start | src-js/node.ts:19-27 | A start changes neither requests nor workers; it suspends one loop if there is work and none is active, and keeps the loop count, the flag and the order in agreement |
| NodeWorkers.CreationQueue.Resume | src-js/node.ts:29-42 | The oldest request becomes the newest worker, so created followed by queued stays the same sequence, or it is lost with the flag left set; loop and order invariants are kept |
| NodeWorkers.NodeWrapper.PostMessage | src-js/node.ts:85-92 | Posted followed by queued messages grow by exactly this one at the end, on the side the worker is on, and nothing waits once there is a worker |
| NodeWorkers.NodeWrapper.OnReady | src-js/node.ts:61-82 | Everything asked for so far has been posted, in order, and nothing waits |
| NodeWorkers.CreatedInOrderOneAtATime | src-js/node.ts:19-42 | Workers are created in request order with at most one creation in progress |
| NodeWorkers.NothingStranded | src-js/node.ts:19-58 | With no timer and no loop pending, every request has been served unless a creation threw |
| NodeWorkers.FlagStuckIffThrew | src-js/node.ts:20-41 | The flag is set with no loop to clear it if and only if a creation has thrown |
| NodeWorkers.FlagCanStick | src-js/node.ts:34-41 | A run with one request in which the flag stays set with no loop and no timer left |
| NodeWorkers.NothingCreatedAfterThrow | src-js/node.ts:19-42 | After a throw no worker is ever created again |
| NodeWorkers.MessagesInOrder | src-js/node.ts:77-92 | A worker has received a prefix of what it was sent, in order, and all of it once its callback has run |
| JsObject.Serializer.Set | src/tasks/interop.rs:96-112 | A refused field sticks: nothing is set afterwards, and the error is there exactly if some call was refused |
| JsObject.Serializer.Finish | src/tasks/interop.rs:121-127 | Over the whole chain of calls: an error if and only if some field was refused, else an object with the type and every field, the last value of each |
| JsObject.KeysDistinct | src/tasks/scheduler_message.rs:363-367 | Indexed keys are equal if and only if prefix and index are |
| JsObject.KeyIsNoPlainName | src/tasks/scheduler_message.rs:473-508 | An indexed key is none of the plain field names |
| ForkPipes.SerializePipes | src/tasks/scheduler_message.rs:356-369 | The loop writes count and entries as specified |
| ForkPipes.DeserializePipes | src/tasks/scheduler_message.rs:190-202 | The loop reads them back as specified, and stops with an error at the first bad entry |
| ForkPipes.PipesRoundTrip | src/tasks/post_message_payload.rs:184-193 | Over any object, the table that reads back is the one written, with its length modulo 2^32 |
| ForkPipes.PipesFrame | src/tasks/post_message_payload.rs:184-193 | Writing a table leaves every other field of the message alone |
| SchedulerCodec.RoundTrip | src/tasks/scheduler_message.rs:133-470 | What every scheduler message arrives as, and that it arrives unchanged if and only if it is not Close, drops no memory and no standard pipes, and has a countable pipe table |
| PayloadCodec.RoundTrip | src/tasks/post_message_payload.rs:142-344 | Every payload arrives unchanged if and only if its pipe table is countable |
| WorkerCodec.RoundTrip | src/tasks/worker_message.rs:23-49 | Nesting a scheduler message in a worker message keeps its round trip |
| ForkTable.Rebuild | src/tasks/task_wasm.rs:258-265 | The insertion loop builds the specified map |
| ForkTable.ListAndBack | src/pipes/extract.rs:39-43 | Listing a table in any order and inserting it back gives the table |
| ForkTable.ForkTableSurvives | src/tasks/task_wasm.rs:99-108 | Through both codecs, and for any listing order, the child's table is the parent's if and only if it has fewer than 2^32 entries |
| Descriptors.ExtractPipeBuffers | src/pipes/extract.rs:50-88 | In any order of the descriptor map, exactly the shared pipe ends are extracted |
| Descriptors.ReconnectPipeBuffers | src/pipes/extract.rs:94-130 | The loop replaces the ends of matching direction and nothing else |
| Descriptors.ForkReconnectsSameRegions | src/pipes/extract.rs:94-130 | In any visiting order the child's shared ends get exactly the parent's regions and directions, and every other descriptor stays |
| Descriptors.ForkedChildSharesRegions | src/tasks/task_wasm.rs:258-269 | The same end to end: extract, both codecs, rebuild, reconnect |

## Left out

- The wait's timeout: a waiting reader may be resumed at any time; how long that takes is not modelled.
- `SharedPipe::from_pool_offset` and `SharedStdioPipes`: they make an end the count does not know about.
- The notify word and `Atomics.notify` on pipes: the writer never changes the word a reader waits on.
- The races of the allocator inside `PipeWorld`: claiming a region is one step there, since `PipePool` covers every interleaving of claims.
- SharedPipe.SharedPipeTx.WriteData: stated for a call without interference; the interleaved call is in `PipeProtocol`.
- SharedPipe.SharedPipeRx.TryRead: likewise.
- SharedPipe.SharedPipeTx.FreeSpace: likewise, its two loads are taken with nobody in between; `PipeProtocol` interleaves them.
- SharedPipe.SharedPipeRx.DataAvailable: likewise.
- SharedPipe.SharedPipeTx.Drop: likewise, its decrement and its close; `PipeEndOfLife` has them as two steps.
- Scheduler.SchedulerState.ExecuteMessage: does not model the Close arm, which the message loop never lets through, nor the output polling set up for a subprocess.
- `ThreadPoolWorker`, `WorkerHandle` and `HostExecImpl` as objects: their turns are steps of the machines on values, so the lifetime of the guard and handle objects is not captured.
- `read_blocking` and the two polls as methods: they are programs in `PipeProtocol`, since what others do between their loads is the point.
- Failing sends and failing worker creation inside the scheduler: every send succeeds there; creation failures are modelled in `NodeWorkers` only.
- The worker's own module cache: the worker ignores cache notices for now, so the theorems are about the notices it is sent.
- A worker that is terminated, and `terminate` of the Node.js wrapper.
- `close`'s delay before it sends Close, and mark-idle messages dropped after the scheduler has closed.
- `HostExecStart` failing (bad request, no handler, no promise), writes to a session's stdin, signals and output of child processes: calls into handler code.
- The contents of a spawn request's JSON, and float-to-integer casts of values from JavaScript.
- The reply to `HostExecStart`, which no reader waits for; its encoding is in `PayloadCodec`.
- `HostExecReadComplete` in the codec, which is never encoded, and `Close`, which has no decoder.
- Hexadecimal module hashes: carried as text.
- Unboxing the address of a task: the box is carried as a token.
- `poll_subprocess_output`, which only logs, and the debug fields and log lines everywhere.
- `src-js/worker.js`, whose pending list can be overtaken by later messages.
- Copying a WebAssembly memory, the file system, registry, packages, networking, streams, terminals and options: thin layers over code outside the repository.
