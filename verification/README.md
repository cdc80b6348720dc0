# Proofs about the concurrent components

This project models the small concurrent C++ components of the repository in Dafny and proves what
they promise: a lock-free queue, a timer scheduler, a work-stealing thread pool, a blocking queue, an
RPC wire format over a growable buffer, an RPC client's bookkeeping, a reactor's event loop and TCP
connection, and an asynchronous logger with file rotation.

Verify everything with `dafny verify dfyconfig.toml`.

## How the models are built

Each concurrent component is a state machine: a `State`, an `Event` for every lock region or atomic
access, `Enabled` and `Do` for one step, and `Exec` for a whole run. Any sequence of events that `Exec`
accepts is an interleaving, so a theorem about all event sequences is a theorem about all
interleavings. The theorems have the same shape throughout: an invariant, one lemma per kind of event
that keeps it, an induction over runs, and then the properties a user relies on, stated for every run
from the initial state. Fields called histories record what happened and are never tested by `Enabled`
or `Do`.

Beside the machines stand the objects: classes with the source's own fields, updated in place by
methods with the source's own loops. Their contracts give the new state as a function of the old one,
using the functions the machine is made of or the abstract contents.

Beside the theorems over runs, lemmas named `...Exactly` and `...Answers` fix single steps in literal terms:
when an operation is refused, what it answers and what else stays as it was. The table lists only those that
say more than the step they are about.

| file | component |
|---|---|
| MpscRing | lock-free multi-producer single-consumer ring, one event per atomic access |
| TimerTable, TimerSharedState, TimerScheduler | the record behind the scheduler's mutex, the object, and the machine of scheduler thread, wrappers and callers |
| TimerPromises | when timers start and end, over runs and event by event |
| ThreadPool, PoolNotify, PoolOrder | the pool machine; the same with its condition variables; its order, and one worker alone |
| PoolObject, BoundedRingQueue, LocalTaskQueue | the pool, ring and deque objects |
| BlockingQueue, QueueAnswers, BlockingQueueObject, RingBuffer | the monitor machine; its answers; the monitor and ring objects |
| Codec, CodecProofs, WireFormat | the codec, its laws, and the literal bytes it reads and writes |
| Buffer, MessageLoop | the byte buffer, the decode loop on the buffer |
| RpcClient, RpcPromises, RpcClientObject, RpcFuture | the client machine; what a caller is promised; the client object; the single-assignment future |
| EventLoop, TcpConnection, EndToEnd | the wake-up protocol; one connection; connection and decoder together |
| AsyncLogger, LoggerStop, LoggerFlush | the logger's accounting over a FIFO; what stop() and flush() promise there |
| LoggerOnRing, LoggerRealised, LoggerCalls | the logger on the lock-free ring, access by access; simulation by the accounting machine and back; what single calls end with |
| LoggerOneCell | what a queue of one cell breaks, and that two cells are exactly enough |
| AsyncLoggerObject, LogRotation | the logger object on the ring object and the file object; batch buffer, files and backups |
| Basics, Modular, RingView | shared datatypes, division with remainder, slots of a ring |

## Where the code does less than one expects

Where an obvious claim is false of the code, the model keeps the code, shows a run or an input at which
the claim fails, and proves for which states or settings it holds.

- The lock-free ring needs two cells; capacity 1 is accepted and overwrites
  (`MpscRing.SafeExactlyFromTwoCells`). Its `full()` can report a full ring that is empty
  (`MpscRing.FullCanBeSpurious`, `MpscRing.FullIsRightExactly`).
- A logger with a queue of one record can wedge (`LoggerOnRing.OneCellWedges`), lose an accepted record
  in a stop() with no log() under way (`LoggerOneCell.OneCellQuietStopLoses`) and flush the wrong record
  (`LoggerOneCell.OneCellFlushLies`); two cells are exactly enough
  (`LoggerOnRing.AccountsExactlyFromTwoCells`, `LoggerOneCell.SameStatesExactlyFromTwoCells`,
  `LoggerOneCell.QuietStopsKeepExactlyFromTwoCells`, `LoggerOneCell.FlushCoversExactlyFromTwoCells`).
- The logger's exit test reads two counters one after the other and can lose an accepted record
  (`LoggerRealised.SplitLooksLose`, `LoggerRealised.StopLosesNothingExactly`).
- `flush()` guarantees a count, not the caller's own record (`LoggerRealised.FlushCanMissOwnRecord`,
  `LoggerRealised.FlushCoversExactly`).
- `stop()` looks at the logger's state and then stores Stopping; a failure of the worker in between is
  overwritten (`LoggerOnRing.FailureCanBeHidden`, `LoggerOnRing.FailureStaysKnownExactly`).
- `push_batch` and `pop_batch` move many elements and notify once, which can leave a waiter asleep
  (`BlockingQueue.NoConsumerStrandedExactly`, `BlockingQueue.NoProducerStrandedExactly`).
- A functor queued by the loop thread before `loop()` starts does not wake the first poll
  (`EventLoop.EarlyFunctorStrands`, `EventLoop.NoLostWakeupExactly`).
- The RPC deadline timer is armed before the call is in the table; a deadline that fires in between is
  lost (`RpcClient.DeadlineCanBeLost`, `RpcClient.DeadlineGuardsExactly`).
- After a read error the bytes read before it are not passed to the message callback, unlike after an
  end of file (`TcpConnection.ReadErrorWithholdsBytes`).

## Model

| member | source | states |
|---|---|---|
| MpscRing.EveryRunIsSafe | code/AsyncLogger/include/async_logger/mpsc_ring_buffer.h:26-61 | with at least two cells, in every interleaving of any number of producers with one consumer: the items moved out are a prefix of the items claimed, in claim order; claimed minus handed-back positions never exceed the capacity; no two threads ever touch one cell's value at once |
| MpscRing.SafeExactlyFromTwoCells | code/AsyncLogger/include/async_logger/mpsc_ring_buffer.h:12-21 | all interleavings are safe if and only if the capacity is at least 2, although the constructor rejects only 0 |
| MpscRing.OneCellOverwrites | code/AsyncLogger/include/async_logger/mpsc_ring_buffer.h:33-38 | with one cell, "published at 0" and "free for 1" are the same sequence number: a concrete run in which a second producer claims the cell before the first item was taken |
| MpscRing.RunKeepsInv | code/AsyncLogger/include/async_logger/mpsc_ring_buffer.h:26-61 | the invariant behind it, kept over every run: each position is unclaimed, claimed by one producer, published or handed back, and its cell's sequence says which |
| MpscRing.RefinesFifo | code/AsyncLogger/include/async_logger/mpsc_ring_buffer.h:34-37 | seen as a FIFO, the successful compare-exchange enqueues the producer's item, the consumer's move dequeues the head, and no other access changes the queue |
| MpscRing.EnqueueFailsOnlyWhenFull | code/AsyncLogger/include/async_logger/mpsc_ring_buffer.h:29-42 | try_enqueue gives up only at a sequence load at which exactly `capacity` positions are claimed and not handed back, and changes nothing |
| MpscRing.LeavesExactly | code/AsyncLogger/include/async_logger/mpsc_ring_buffer.h:29-44 | a thread leaves try_enqueue in two ways only: it has published the item it claimed at its position, or it looked when no cell was free; a stale look never ends a call |
| MpscRing.OfferedItemIsKept | code/AsyncLogger/include/async_logger/mpsc_ring_buffer.h:26-47 | under every interference: an item offered to the queue is still being offered by its thread, or was claimed by it at a new position, or the queue was full at some moment of the run |
| MpscRing.DequeueFailsExactlyWhenHeadUnpublished | code/AsyncLogger/include/async_logger/mpsc_ring_buffer.h:50-55 | try_dequeue gives up if and only if the head position is unclaimed or its owner has not published it |
| MpscRing.HeadAdvances | code/AsyncLogger/include/async_logger/mpsc_ring_buffer.h:58-59 | over every run the dequeue position never moves back and never passes the enqueue position |
| MpscRing.FullIsRightExactly | code/AsyncLogger/include/async_logger/mpsc_ring_buffer.h:63-67 | full(), with any run between its two loads and the subtraction modulo 2^64, answers as the two positions say if and only if the consumer has not passed the first load in between; and then "full" means that the ring was full at the first load |
| MpscRing.FullCanBeSpurious | code/AsyncLogger/include/async_logger/mpsc_ring_buffer.h:63-67 | a concrete run for every capacity from 2 on: the ring is empty at both loads, one item passes through in between, and full() says full |
| MpscRing.MpscRingBuffer.TryEnqueue | code/AsyncLogger/include/async_logger/mpsc_ring_buffer.h:26-47 | one call without interference, spurious failures of the exchange included: appends, or refuses exactly when full |
| MpscRing.MpscRingBuffer.TryDequeue | code/AsyncLogger/include/async_logger/mpsc_ring_buffer.h:49-61 | one call without interference: takes the head, or refuses exactly when empty |
| MpscRing.MpscRingBuffer.constructor | code/AsyncLogger/include/async_logger/mpsc_ring_buffer.h:12-21 | cells start free for their own index; the value is the machine's initial state |
| MpscRing.MpscRingBuffer.BeginEnqueue | code/AsyncLogger/include/async_logger/mpsc_ring_buffer.h:26-27 | loading the enqueue position is the machine's step |
| MpscRing.MpscRingBuffer.LoadSequence | code/AsyncLogger/include/async_logger/mpsc_ring_buffer.h:29-43 | loading the cell's sequence and the three-way comparison is the machine's step; the call is over exactly when it tells so, and otherwise goes on with its item |
| MpscRing.MpscRingBuffer.Reload | code/AsyncLogger/include/async_logger/mpsc_ring_buffer.h:44 | reloading the position is the machine's step |
| MpscRing.MpscRingBuffer.CompareExchange | code/AsyncLogger/include/async_logger/mpsc_ring_buffer.h:34-36 | the weak compare-exchange, spurious failure included, is the machine's step |
| MpscRing.MpscRingBuffer.WriteValue | code/AsyncLogger/include/async_logger/mpsc_ring_buffer.h:37 | writing the value into the claimed cell is the machine's step |
| MpscRing.MpscRingBuffer.Publish | code/AsyncLogger/include/async_logger/mpsc_ring_buffer.h:38-39 | publishing stores position + 1 and ends the call |
| MpscRing.MpscRingBuffer.BeginDequeue | code/AsyncLogger/include/async_logger/mpsc_ring_buffer.h:50 | the consumer's load of its position is the machine's step |
| MpscRing.MpscRingBuffer.CheckHead | code/AsyncLogger/include/async_logger/mpsc_ring_buffer.h:51-55 | the consumer's look at the head cell is the machine's step; tells whether the call gave up |
| MpscRing.MpscRingBuffer.MoveOut | code/AsyncLogger/include/async_logger/mpsc_ring_buffer.h:57 | moving the value out is the machine's step |
| MpscRing.MpscRingBuffer.ReleaseCell | code/AsyncLogger/include/async_logger/mpsc_ring_buffer.h:58 | handing the cell back for the next round is the machine's step |
| MpscRing.MpscRingBuffer.AdvanceHead | code/AsyncLogger/include/async_logger/mpsc_ring_buffer.h:59-60 | storing the dequeue position ends the call and yields the item |
| TimerScheduler.EveryRunIsExclusive | code/TimerScheduler/TimerScheduler.cpp:296-441 | in every interleaving of the scheduler thread, wrappers and callers: each timer id is held by at most one of heap node, ready-batch entry and live wrapper; its state says by which (unless the executor destroyed the wrapper unrun); in_flight is the number of live completion tokens. A periodic timer therefore never overlaps itself |
| TimerScheduler.CancelIsFinal | code/TimerScheduler/TimerScheduler.cpp:197-216 | once cancel(id) has returned true, in every continuation no execution of id begins and no later cancel(id) returns true |
| TimerScheduler.OneShotStartsOnce | code/TimerScheduler/TimerScheduler.cpp:371-396 | once a one-shot timer's callback has started, in every continuation it never starts again |
| TimerScheduler.StopIsFinal | code/TimerScheduler/TimerScheduler.cpp:107-131 | when the last lock region of stop() or wait() runs, no heap node, state or wrapper token is left, after stop() no batch either, and no callback ever starts afterwards |
| TimerScheduler.NothingStartsEarly | code/TimerScheduler/TimerScheduler.cpp:290-326 | in every run, when a callback starts the worker has seen a time not before the task's expiration; for a one-shot timer that is the time it was scheduled for |
| TimerScheduler.RunsItsOwnCallback | code/TimerScheduler/TimerScheduler.cpp:371-405 | the callback that starts is the one its id was scheduled with, and no other wrapper carries the id |
| TimerScheduler.WorkerDoesNotSpin | code/TimerScheduler/TimerScheduler.cpp:248-288 | after an interrupted wait and its purge loop, the next wait of the worker blocks: it cannot go round with the mutex held |
| TimerScheduler.BatchesAreExact | code/TimerScheduler/TimerScheduler.cpp:290-326 | each batch holds, in (expiration, id) order, exactly the due timers that are pending; exactly the timers not yet due stay in the heap |
| TimerScheduler.RunKeepsInv | code/TimerScheduler/TimerScheduler.cpp:233-470 | the ownership invariant over every run: who holds each id, what each state means, what each token keeps alive |
| TimerScheduler.DeadIsSilent | code/TimerScheduler/TimerScheduler.cpp:296-396 | a cancelled or forgotten id stays silent over every run: no start, no successful cancel |
| TimerScheduler.StoppedNeverBegins | code/TimerScheduler/TimerScheduler.cpp:122-131 | once stopped, no callback begins in any run |
| TimerPromises.PeriodicKeepsInterval | code/TimerScheduler/TimerScheduler.cpp:410-441 | between the end of one execution of a periodic timer and the start of the next the worker sees a time not before that end plus the interval it was scheduled with, in every run |
| TimerPromises.EndsExactly | code/TimerScheduler/TimerScheduler.cpp:410-441 | when a callback is over its timer is pending again exactly when it is periodic, not cancelled and the scheduler runs, with one node that expires its scheduled interval from now; otherwise it is forgotten; all other nodes stay |
| TimerPromises.FirstStartWaits | code/TimerScheduler/TimerScheduler.cpp:133-195 | the first start of any timer comes only after the worker has seen, since it was scheduled, a time not before now plus the delay or interval asked for, in every run |
| TimerPromises.StopSilencesWaiting | code/TimerScheduler/TimerScheduler.cpp:48-75 | a timer that waits when stop() begins on a running scheduler never runs, in every continuation |
| TimerPromises.NeverOversleeps | code/TimerScheduler/TimerScheduler.cpp:248-270 | while nothing ends the worker's wait, the scheduler runs, the timer it waits for is pending, and no timer in the heap expires before the time it waits for |
| TimerTable.PurgeEndsSpinning | code/TimerScheduler/TimerScheduler.cpp:266-288 | after the purge loop the wait predicate is false for the new top, or the heap is empty or the scheduler not running |
| TimerTable.PurgeRemovesCancelled | code/TimerScheduler/TimerScheduler.cpp:273-286 | the purge loop removes exactly a first stretch of the heap, all cancelled, with their states, and nothing else |
| TimerTable.BatchTakesDueLive | code/TimerScheduler/TimerScheduler.cpp:298-326 | the batch loop takes exactly the pending timers that are due, marks them submitted, and leaves exactly the nodes not yet due |
| TimerTable.DueLiveSorted | code/TimerScheduler/TimerScheduler.h:64-71 | a batch is in (expiration, id) order and contains a node if and only if it is due and pending |
| TimerTable.InsertSorted | code/TimerScheduler/TimerScheduler.h:64-73 | the heap order by (expiration, id) survives a push |
| TimerTable.InsertContents | code/TimerScheduler/TimerScheduler.h:73 | a push adds just the new node |
| TimerSharedState.SharedState.Start | code/TimerScheduler/TimerScheduler.cpp:32-46 | starts only from Created |
| TimerSharedState.SharedState.RequestStop | code/TimerScheduler/TimerScheduler.cpp:48-75 | Created becomes Stopped, Running becomes Stopping and, in a loop over the states, every pending timer becomes cancelled |
| TimerSharedState.SharedState.ScheduleAfter | code/TimerScheduler/TimerScheduler.cpp:133-163 | refuses a negative delay, an empty callback, a scheduler not running, in that order; else a fresh id, pending, in heap order; wakes the worker exactly when the new node comes first |
| TimerSharedState.SharedState.ScheduleEvery | code/TimerScheduler/TimerScheduler.cpp:165-195 | the same for a positive interval |
| TimerSharedState.SharedState.Cancel | code/TimerScheduler/TimerScheduler.cpp:197-216 | false for unknown or cancelled ids, else the state becomes cancelled; wakes the worker exactly for the top |
| TimerSharedState.SharedState.PurgeCancelled | code/TimerScheduler/TimerScheduler.cpp:273-286 | the purge loop computes the specified purge |
| TimerSharedState.SharedState.TakeDue | code/TimerScheduler/TimerScheduler.cpp:296-326 | the batch loop computes the specified batch |
| TimerSharedState.SharedState.SubmitCheck | code/TimerScheduler/TimerScheduler.cpp:340-355 | the check before submitting: drop, skip, or count one more in flight |
| TimerSharedState.SharedState.Erase | code/TimerScheduler/TimerScheduler.cpp:450-455 | a rejected timer is forgotten |
| TimerSharedState.SharedState.BeginCallback | code/TimerScheduler/TimerScheduler.cpp:382-396 | the wrapper's first lock region: run, or drop a cancelled or foreign timer |
| TimerSharedState.SharedState.EndCallback | code/TimerScheduler/TimerScheduler.cpp:410-441 | the wrapper's second lock region: a periodic timer of a running scheduler goes back into the heap, anything else is forgotten; wakes the worker exactly when it comes first |
| TimerSharedState.SharedState.FinishInFlight | code/TimerScheduler/TimerScheduler.cpp:218-231 | one fewer in flight; notifies at zero |
| TimerSharedState.SharedState.Finalize | code/TimerScheduler/TimerScheduler.cpp:126-130 | clears everything and ends in Stopped |
| ThreadPool.EveryRunConserves | code/ThreadPool/ThreadPool.cpp:107-244 | in every interleaving and for every task: accepted minus executed is what the global ring, the local deques and the workers' hands hold; nothing runs more often than it was accepted |
| ThreadPool.DrainIsComplete | code/ThreadPool/ThreadPool.cpp:139-149 | when all workers have exited, every queue is empty and every accepted task ran exactly as often as accepted, although local pushes bypass the pool mutex and the scan of the deques is not atomic |
| ThreadPool.OwnerOfWorkIsAwake | code/ThreadPool/ThreadPool.cpp:139-148 | a non-empty local deque has an owner that is running or about to pop it: no worker parks, scans or exits on its own work, so a notification lost to the missing mutex strands nothing |
| ThreadPool.RingClosedAfterExit | code/ThreadPool/ThreadPool.cpp:161-172 | once a worker has exited, the pool is stopping and the global ring stays empty in every run |
| ThreadPool.RunKeepsInv | code/ThreadPool/ThreadPool.cpp:107-150 | the invariant over every run: conservation per task, one holder of the mutex, quiet deques of parked workers |
| PoolOrder.RingIsFifo | code/ThreadPool/ThreadPool.cpp:121-133 | in every interleaving the tasks leave the global ring in the order in which they were accepted into it |
| PoolOrder.TurnAlone | code/ThreadPool/ThreadPool.cpp:107-150 | a worker whose steps nobody interrupts takes the front of its own deque, else the ring's head, else the back of another deque, else sleeps, or leaves when the pool is stopping: the machine's steps add up to the object's turn |
| PoolNotify.NobodyIsStranded | code/ThreadPool/ThreadPool.cpp:121-198 | with the condition variables, spurious wake-ups and timeouts: in every run a task in the global ring has a worker awake or a notify_one still to come; while a post_wait sleeps every free slot has a woken poster or a notify_one still to come; after the stop, while a poster or a worker that was not woken sleeps, a notify_all is still to come |
| PoolObject.Pool.constructor | code/ThreadPool/ThreadPool.cpp:5-33 | empty ring and one empty deque per worker |
| PoolObject.Pool.TryPost | code/ThreadPool/ThreadPool.cpp:152-175 | a worker pushes to the front of its own deque whatever the pool's phase; others are refused when stopping, then when full |
| PoolObject.Pool.Post | code/ThreadPool/ThreadPool.cpp:200-244 | the full case follows the reject policy: throw, drop or run in the caller; otherwise as try_post |
| PoolObject.Pool.TrySteal | code/ThreadPool/ThreadPool.cpp:54-66 | the scan finds nothing only if all other deques are empty, and takes the last task of one |
| PoolObject.Pool.AllLocalEmpty | code/ThreadPool/ThreadPool.cpp:82-92 | true exactly when every deque is empty |
| PoolObject.Pool.HasAnyWork | code/ThreadPool/ThreadPool.cpp:94-105 | true exactly when the ring or some deque is not empty: the cyclic scan misses none |
| PoolObject.Pool.WorkerTurn | code/ThreadPool/ThreadPool.cpp:107-150 | one turn without interference: own deque from the front, then the ring's head, then another deque's back; exits exactly when stopping and nothing is left |
| PoolObject.VictimReaches | code/ThreadPool/ThreadPool.cpp:57-59 | the cyclic offsets reach every other worker's deque |
| BoundedRingQueue.Queue.Push | code/ThreadPool/BoundedRingQueue.h:51-60 | appends to the contents, or refuses exactly when full |
| BoundedRingQueue.Queue.Pop | code/ThreadPool/BoundedRingQueue.h:62-73 | removes and returns the head, or refuses exactly when empty |
| BoundedRingQueue.Queue.Clear | code/ThreadPool/BoundedRingQueue.h:75-81 | the loop leaves it empty |
| LocalTaskQueue.Deque.PushOwner | code/ThreadPool/LocalTaskQueue.h:15-19 | the owner pushes at the front |
| LocalTaskQueue.Deque.TryPopOwner | code/ThreadPool/LocalTaskQueue.h:21-31 | the owner pops at the front |
| LocalTaskQueue.Deque.TrySteal | code/ThreadPool/LocalTaskQueue.h:33-43 | a thief takes from the back |
| BlockingQueue.RunKeepsFifo | code/BlockingQueue/include/blocking_queue.hpp:170-454 | over every run, batches, timeouts, spurious wake-ups and close included: elements pushed = elements popped followed by the contents, in order; the capacity is respected; after close nothing enters |
| BlockingQueue.NoConsumerStrandedExactly | code/BlockingQueue/include/blocking_queue.hpp:391-414 | no run leaves a consumer asleep on a non-empty or closed queue with nobody to wake it, if and only if pushes add at most one element (or the capacity is 1) |
| BlockingQueue.NoProducerStrandedExactly | code/BlockingQueue/include/blocking_queue.hpp:416-439 | the dual for producers and the size of pops |
| BlockingQueue.ConsumersNeverStranded | code/BlockingQueue/include/blocking_queue.hpp:227-298 | the invariant: while consumers wait, elements <= woken consumers + notifications still to come; after close a notify_all is still to come |
| BlockingQueue.ProducersNeverStranded | code/BlockingQueue/include/blocking_queue.hpp:170-225 | the dual invariant for free slots |
| BlockingQueue.BatchPushStrands | code/BlockingQueue/include/blocking_queue.hpp:406-411 | a concrete run: push_batch adds two elements, notifies one of two waiting consumers, the other sleeps on |
| BlockingQueue.BatchPopStrands | code/BlockingQueue/include/blocking_queue.hpp:431-436 | a concrete run: pop_batch frees two slots, notifies one of two waiting producers, the other sleeps on |
| BlockingQueue.BatchPushIsSingles | code/BlockingQueue/include/blocking_queue.hpp:84-97 | push_batch leaves what that many single pushes leave, refused ones included |
| BlockingQueue.BatchPopIsSingles | code/BlockingQueue/include/blocking_queue.hpp:99-112 | pop_batch leaves what that many single pops leave |
| BlockingQueueObject.Monitor.Push | code/BlockingQueue/include/blocking_queue.hpp:170-225 | the lock region of push, emplace and the timed pushes: wait when open and full, refuse when closed, else append |
| BlockingQueueObject.Monitor.TryPush | code/BlockingQueue/include/blocking_queue.hpp:248-298 | appends exactly when open and not full, else changes nothing |
| BlockingQueueObject.Monitor.PushBatch | code/BlockingQueue/include/blocking_queue.hpp:391-414 | waits only when it has values and the open queue is full; pushes as many as fit |
| BlockingQueueObject.Monitor.Pop | code/BlockingQueue/include/blocking_queue.hpp:227-246 | waits when open and empty, refuses when closed and empty, else takes the head; a closed queue still drains |
| BlockingQueueObject.Monitor.PopBatch | code/BlockingQueue/include/blocking_queue.hpp:416-439 | fills the front of the output, in order |
| BlockingQueueObject.Monitor.Close | code/BlockingQueue/include/blocking_queue.hpp:441-454 | closes; notifies everybody exactly the first time |
| RingBufferObject.RingBuffer.Emplace | code/BlockingQueue/include/blocking_queue.hpp:32-43 | appends, or refuses exactly when full |
| RingBufferObject.RingBuffer.Pop | code/BlockingQueue/include/blocking_queue.hpp:65-82 | takes the head and resets its slot, or refuses exactly when empty |
| RingBufferObject.RingBuffer.PushBatch | code/BlockingQueue/include/blocking_queue.hpp:84-97 | the loop appends the longest prefix that fits; size is updated once at the end |
| RingBufferObject.RingBuffer.PopBatch | code/BlockingQueue/include/blocking_queue.hpp:99-112 | the loop moves the oldest elements to the front of the output and leaves the rest of the output alone |
| CodecProofs.RoundTrip | code/MiniRPC/src/codec.cpp:200-315 | every encodable message, followed by any bytes, decodes to itself (an empty serializer read as "raw") and consumes exactly its frame |
| CodecProofs.VerdictsAreStable | code/MiniRPC/src/codec.cpp:96-131 | appending bytes never changes a Complete or ProtocolError verdict |
| CodecProofs.PrefixesNeedMore | code/MiniRPC/src/codec.cpp:98-124 | every strict prefix of a valid frame gives NeedMoreData |
| CodecProofs.CompleteConsumes | code/MiniRPC/src/codec.cpp:119-130 | a complete message consumes at least the 24-byte header and never more than the buffer holds |
| CodecProofs.EncodingIsInjective | code/MiniRPC/src/codec.cpp:68-87 | two messages of one kind with the same frame are the same up to the empty serializer |
| WireFormat.EncodesExactly | code/MiniRPC/src/codec.cpp:68-87 | the encoder succeeds exactly when the strings fit 32 bits and metadata and body 16 MiB together, with the right error otherwise, and writes exactly these literal bytes: "MRPC", 1, the type, the id, the lengths, the fields, "META", 1 and the extended fields exactly when one is not the default, the body, every number most significant byte first |
| WireFormat.JudgesHeaderExactly | code/MiniRPC/src/codec.cpp:96-124 | with 24 bytes or more, a header that does not begin with 4D 52 50 43 00 01 00 and the type, or announces more than 16 MiB, is a protocol error; the decoder asks for more data exactly with fewer than 24 bytes, or with an allowed header and fewer bytes than it announces |
| WireFormat.DecodesExactly | code/MiniRPC/src/codec.cpp:96-315 | the decoder delivers a message and consumes n bytes if and only if a frame of that message in this literal format stands at the front and is n bytes long; a frame without the extension stands for the defaults, an empty serializer for "raw"; so wrong marks, versions, types, lengths and trailing metadata are never accepted |
| WireFormat.RejectsExactly | code/MiniRPC/src/codec.cpp:110-118 | a protocol error is reported if and only if the header is not of the format, or all announced bytes are there and are no frame of any message |
| CodecProofs.DecodeAllInTwoParts | code/MiniRPC/src/rpc_server.cpp:69-85 | decoding a stream in two parts gives what decoding it at once gives |
| CodecProofs.FragmentationIsInvisible | code/MiniRPC/src/rpc_server.cpp:69-85 | for any byte stream, valid or not, and any cut into chunks: same messages, same error verdict, same bytes left without an error |
| CodecProofs.StreamDecodes | code/MiniRPC/src/rpc_server.cpp:69-85 | the frames of a list of messages decode to that list and leave nothing |
| WireFormat.LoopStopsExactly | code/MiniRPC/src/rpc_server.cpp:69-85 | for any bytes the loop delivers one message per accepted frame and stops exactly where the decoder reports an error (and then closes) or asks for more |
| CodecProofs.AnyFragmentationDelivers | code/MiniRPC/src/rpc_server.cpp:69-85 | for every list of encodable messages and every cut of their frames into chunks, the loop delivers exactly that list, in order, and leaves the buffer empty |
| Codec.IntegersRoundTrip | code/MiniRPC/src/codec.cpp:24-66 | the big-endian writers and readers are inverse, the int cast of the error code included |
| CodecProofs.RequestMetadataRoundTrip | code/MiniRPC/src/codec.cpp:249-273 | the request metadata, with or without extension, reads back |
| CodecProofs.ResponseMetadataRoundTrip | code/MiniRPC/src/codec.cpp:287-309 | the response metadata, with or without extension, reads back |
| MessageLoop.TryDecode | code/MiniRPC/src/codec.cpp:241-277 | the decoder on the buffer itself: consumes bytes only when complete |
| MessageLoop.OnMessage | code/MiniRPC/src/rpc_server.cpp:69-85 | the message loop ends and delivers what decoding the whole buffer delivers |
| MessageLoop.Receive | code/MiniRPC/src/rpc_server.cpp:69-85 | append then loop: one chunk of the stream |
| NetBuffer.Buffer.constructor | code/MiniReactor/src/net/Buffer.cpp:9 | empty, with the reader behind the 8 bytes of the prepend area |
| NetBuffer.Buffer.Append | code/MiniReactor/src/net/Buffer.cpp:11-15 | appends to the contents; room is always found |
| NetBuffer.Buffer.Prepend | code/MiniReactor/src/net/Buffer.cpp:21-27 | prepends, or refuses exactly when the front has too little room |
| NetBuffer.Buffer.Retrieve | code/MiniReactor/src/net/Buffer.cpp:55-63 | drops the first bytes, or refuses exactly when there are fewer |
| NetBuffer.Buffer.RetrieveAll | code/MiniReactor/src/net/Buffer.cpp:65-68 | leaves it empty |
| NetBuffer.Buffer.RetrieveAllAsString | code/MiniReactor/src/net/Buffer.cpp:49-53 | yields the contents and leaves it empty |
| NetBuffer.Buffer.EnsureWritableBytes | code/MiniReactor/src/net/Buffer.cpp:70-74 | makes room, contents unchanged |
| NetBuffer.Buffer.MakeSpace | code/MiniReactor/src/net/Buffer.cpp:76-88 | grows or compacts, contents unchanged; the compacting branch is reached only with the reader past the prepend area, so the ascending overlapping copy is sound |
| RpcClient.EveryCallIsInOnePlace | code/MiniRPC/src/rpc_client.cpp:181-288 | over all interleavings of responses, deadlines, cancels, disconnects and retries: every issued call is in exactly one place (being prepared, in the table, taken, recorded, future set), so it leaves the table at most once; no future is completed twice |
| RpcClient.FirstTakerDecides | code/MiniRPC/src/rpc_client.cpp:430-480 | once a call was taken with some outcome, in every continuation its future can only get that outcome |
| RpcClient.TakerDecidesFuture | code/MiniRPC/src/rpc_client.cpp:430-480 | a response, failure, cancel or deadline that finds the call in the table of a reachable state decides it: in every continuation its future can only get that outcome and the call is never in the table again |
| RpcClient.CountersConserve | code/MiniRPC/src/rpc_client.cpp:549-563 | in every run total = success + failed + in preparation + pending + taken; success + failed = recorded + set futures; timeout + cancelled <= failed |
| RpcClient.CountersMeanOutcomes | code/MiniRPC/src/rpc_client.cpp:549-563 | in every run the success, timeout and cancelled counters are exactly the numbers of calls that ended with such an outcome |
| RpcClient.RefusedNeverEnters | code/MiniRPC/src/rpc_client.cpp:243-276 | a call that finds the client stopping, or fail-fast no connection, is in no continuation in the table, on the wire or about to be sent, and its future can only tell that refusal |
| RpcPromises.UnpreparedNeverEnters | code/MiniRPC/src/rpc_client.cpp:202-224 | a call with no time left, or that cannot be encoded, is in no continuation in the table, on the wire or about to be sent, and its future can only tell 1003 or 1002; every other call goes on with its deadline armed |
| RpcPromises.EndIsFinal | code/MiniRPC/src/rpc_client.cpp:430-547 | a response, failure, deadline, lost connection or connection error ends exactly the calls it is about (sent or fail-fast; waiting without retries left; all; this one), and in every continuation their futures can only tell its code |
| RpcPromises.StoppedRefusesAll | code/MiniRPC/src/rpc_client.cpp:52-62 | once the client stops, every call that comes to admission in any continuation is refused with 1005, and no reconnect is ever scheduled |
| RpcClient.AdmittedCanEnter | code/MiniRPC/src/rpc_client.cpp:266-281 | a call that finds neither can go on into the table: the condition is exact |
| RpcClient.FramesAreSentOnce | code/MiniRPC/src/rpc_client.cpp:405-428 | in every run no frame is handed to the connection twice, and a call still waiting (what a reconnect sends) was never sent |
| RpcClient.RetriesAreBounded | code/MiniRPC/src/rpc_client.cpp:519-547 | a waiting call with retries survives at most max_retries - (attempt - 1) connection errors, so at most max_retries when it started at attempt 1 |
| RpcClient.ReconnectDelay | code/MiniRPC/src/rpc_client.cpp:570-580 | after n effective schedulings since the last connection the next delay is min(3000, 100 * 2^n) ms |
| RpcClient.DeadlineGuardsExactly | code/MiniRPC/src/rpc_client.cpp:240-281 | a call in the table has its deadline timer if and only if the timer did not fire before the call was inserted |
| RpcClient.DeadlineCanBeLost | code/MiniRPC/src/rpc_client.cpp:240-281 | a concrete run in which it did: the call is in the table with no timer left |
| RpcClient.RunKeepsInv | code/MiniRPC/src/rpc_client.cpp:181-580 | the invariant over every run: places, futures, frames, counters, timers, attempts |
| RpcClientObject.DownKeepsCalls | code/MiniRPC/src/rpc_client.cpp:311-323 | when the connection goes down no call is lost: with a reconnect exactly the calls never sent and not fail-fast survive, as they were, without one none; every other call learns 1001, and futures set before stay |
| RpcClientObject.ErrorKeepsCalls | code/MiniRPC/src/rpc_client.cpp:326-353 | a connection error loses no call: the client goes on exactly when a reconnect is wanted and some call waits that has retries left or none to count; then exactly the waiting calls without retries left end, with 1007, and the other retrying ones are one attempt further; else every call ends, with 1001 or 1007 |
| RpcClientObject.Client.RecordClientResponse | code/MiniRPC/src/rpc_client.cpp:549-563 | one outcome counted as specified |
| RpcClientObject.Client.CompletePending | code/MiniRPC/src/rpc_client.cpp:445-456 | counts the outcome and sets the future unless it is set |
| RpcClientObject.Client.CompleteResponse | code/MiniRPC/src/rpc_client.cpp:430-443 | takes and completes the call in the table, else does nothing |
| RpcClientObject.Client.FailPending | code/MiniRPC/src/rpc_client.cpp:458-480 | the same with an error |
| RpcClientObject.Client.FailAllPending | code/MiniRPC/src/rpc_client.cpp:482-497 | the two loops take out every call and complete each once |
| RpcClientObject.Client.FailSentPending | code/MiniRPC/src/rpc_client.cpp:499-517 | the loop takes out exactly the sent and the fail-fast calls |
| RpcClientObject.Client.ExpireRetryExhaustedPending | code/MiniRPC/src/rpc_client.cpp:519-547 | the loop takes out exactly the waiting calls without retries left, moves the other retrying ones one attempt further, and reports whether a waiting call remains |
| RpcClientObject.Client.OnConnectionUp | code/MiniRPC/src/rpc_client.cpp:299-309 | the reconnect delay starts over and every waiting call is sent once, or fails as late |
| RpcClientObject.Client.OnConnectionDown | code/MiniRPC/src/rpc_client.cpp:311-323 | the effect on all calls; when a reconnect is wanted there is a reconnect timer afterwards, only a new one doubles the delay up to 3 s, and the reconnect is counted; otherwise nothing of the link but its state changes |
| RpcClientObject.Client.OnConnectionError | code/MiniRPC/src/rpc_client.cpp:326-353 | the same for a connection error |
| RpcClientObject.Client.SendPendingCall | code/MiniRPC/src/rpc_client.cpp:405-428 | sends exactly a waiting call before its deadline on a connection; a late one fails with QueueingTimeout |
| RpcClientObject.Client.SendPendingCalls | code/MiniRPC/src/rpc_client.cpp:382-403 | on an open connection every waiting call is sent, once, or fails as late, and is counted |
| RpcClientObject.Client.ScheduleReconnect | code/MiniRPC/src/rpc_client.cpp:570-595 | takes the delay and doubles it only when a reconnect is wanted and none is scheduled |
| RpcFuture.FirstCompletionWins | code/MiniRPC/src/rpc_future.cpp:41-74 | for every order of complete, setCancel and cancel: the future holds the first completion for good, and the cancel action is the last one set before it, dropped by it |
| RpcFuture.State.Complete | code/MiniRPC/src/rpc_future.cpp:55-66 | sets the response and drops the cancel action, only the first time |
| RpcFuture.State.SetCancel | code/MiniRPC/src/rpc_future.cpp:68-74 | ignored once completed |
| RpcFuture.State.Cancel | code/MiniRPC/src/rpc_future.cpp:41-53 | calls the action unless completed |
| EventLoop.ExecutesInQueueOrder | code/MiniReactor/src/net/EventLoop.cpp:78-86 | in every run functors are executed in queue order, each at most once; those not executed are exactly the rest of the batch and the pending ones |
| EventLoop.NoLostWakeup | code/MiniReactor/src/net/EventLoop.cpp:53-68 | entering loop() with nothing pending, no run polls with functors pending or quit requested unless the wake-up counter is positive or a wake-up is on its way |
| EventLoop.NoLostWakeupExactly | code/MiniReactor/src/net/EventLoop.cpp:78-86 | that holds for every run if and only if loop() is entered with no functor pending, a wake-up on its way, or quit set |
| EventLoop.EarlyFunctorStrands | code/MiniReactor/src/net/EventLoop.cpp:83-85 | queueInLoop() on the loop thread before loop() violates that condition |
| EventLoop.BacklogRunsInOneRound | code/MiniReactor/src/net/EventLoop.cpp:164-175 | everything queued before a swap of a reachable state was executed, in order, in every continuation that is no longer running that batch |
| EventLoop.RunsWhatWasQueued | code/MiniReactor/src/net/EventLoop.cpp:78-86 | in every run the functors executed, in the batch and pending are together exactly those that the run's queueInLoop() calls queued, in that order |
| EventLoop.EndsExactlyOnQuit | code/MiniReactor/src/net/EventLoop.cpp:53-68 | in every run the loop ends only if quit() was called, and its next test ends it if and only if it was |
| EventLoop.AnnouncedOnce | code/MiniReactor/src/net/EventLoop.cpp:65-86 | over every run the wake-ups written and still owed are exactly one for each functor or quit from outside and each functor queued while functors run |
| EventLoop.Loop.QueueInLoop | code/MiniReactor/src/net/EventLoop.cpp:78-86 | appends, and wakes unless the loop thread queues outside the functor phase |
| EventLoop.Loop.DoPendingFunctors | code/MiniReactor/src/net/EventLoop.cpp:164-175 | runs what was pending, in order, once; what the functors queue meanwhile stays pending, in order, each with a wake-up |
| TcpConnection.EveryRunKeepsOrder | code/MiniReactor/src/net/TcpConnection.cpp:73-123 | for every run and every behaviour of the kernel: bytes taken + output buffer = bytes accepted while connected, until closed, and a prefix of them afterwards; while open, write interest holds iff the buffer is non-empty; the write half is shut down at most once and only after all accepted bytes were taken; the close callback runs at most once |
| TcpConnection.HalfCloseFollowsDrain | code/MiniReactor/src/net/TcpConnection.cpp:115-123 | after shutdown(), until closed, the write half is shut down if and only if the buffer is empty |
| TcpConnection.ShutIsFinal | code/MiniReactor/src/net/TcpConnection.cpp:198-201 | after shutdownWrite() nothing more is sent and it is not called again, in every run |
| TcpConnection.Connection.HandleClose | code/MiniReactor/src/net/TcpConnection.cpp:204-214 | disconnects once |
| TcpConnection.Connection.SendInLoop | code/MiniReactor/src/net/TcpConnection.cpp:73-108 | direct send only when nothing is queued; the remainder is buffered and write interest turned on; closes on an error |
| TcpConnection.Connection.SendDirectly | code/MiniReactor/src/net/TcpConnection.cpp:82-100 | the send loop takes what the kernel takes: retries EINTR, stops on EAGAIN, breaks on an error or zero |
| TcpConnection.Connection.HandleWrite | code/MiniReactor/src/net/TcpConnection.cpp:175-202 | drains, turns write interest off when empty, then half-closes if asked to |
| TcpConnection.Connection.ShutdownInLoop | code/MiniReactor/src/net/TcpConnection.cpp:115-123 | half-closes at once only without write interest |
| TcpConnection.Connection.ForceCloseInLoop | code/MiniReactor/src/net/TcpConnection.cpp:130-136 | closes an open connection |
| TcpConnection.Connection.HandleRead | code/MiniReactor/src/net/TcpConnection.cpp:143-173 | everything read goes to the input buffer; the message callback runs if something came, but not before a close after a read error |
| TcpConnection.DrainOutput | code/MiniReactor/src/net/TcpConnection.cpp:181-196 | the drain loop removes from the buffer exactly what the kernel took |
| TcpConnection.ReadErrorWithholdsBytes | code/MiniReactor/src/net/TcpConnection.cpp:143-173 | bytes read before a read error stay in the input buffer and the message callback does not run; before an end of file it does |
| TcpConnection.OffersExactly | code/MiniReactor/src/net/TcpConnection.cpp:82-100 | the send loop goes on over partial sends and interruptions until all is taken, then is drained; at the first reply of another kind, or none, it is blocked, or broken by an error or a send of nothing |
| TcpConnection.ReadsExactly | code/MiniReactor/src/net/TcpConnection.cpp:143-173 | the read loop collects all bytes over interruptions and ends at the first other reply; no bytes is an end of file |
| TcpConnection.ClosedOnce | code/MiniReactor/src/net/TcpConnection.cpp:204-214 | in every run without connectDestroyed() the close callback has run exactly once if the connection is closed and not at all otherwise |
| TcpConnection.ShutdownAcceptsNothing | code/MiniReactor/src/net/TcpConnection.cpp:110-123 | after shutdown() no further byte is accepted, in any continuation |
| EndToEnd.DeliversInOrder | code/MiniReactor/src/net/TcpConnection.cpp:73-202 | sender, kernel, network and decoder together: whatever part of the bytes the kernel took has arrived, and however it is cut, the receiver delivers a prefix of the messages accepted as frames, in order and without error; all of them once the sender has drained and everything has arrived |
| EndToEnd.PrefixDecodes | code/MiniRPC/src/rpc_server.cpp:69-85 | decoding a prefix of a stream of frames never fails and gives a prefix of the messages |
| LoggerOnRing.StepSimulates | code/AsyncLogger/include/async_logger/mpsc_ring_buffer.h:26-61 | from two cells on, every atomic access of log(), of the ring inside it and of the worker is a step of the accounting machine on the ring seen as a queue, or changes nothing of it: the claim enqueues, the sequence store publishes, handing the cell back dequeues; a full or unpublished verdict is the queue's |
| LoggerOnRing.RunSimulates | code/AsyncLogger/src/async_logger.cpp:115-325 | every run of the logger on its ring is a run of the accounting machine, and keeps the ring's invariant |
| LoggerRealised.RunRealises | code/AsyncLogger/src/async_logger.cpp:115-325 | the other direction: from two cells on, whatever the accounting machine can do from what it sees of a reachable state, the logger on its ring can do, each step by undisturbed accesses of one thread, also from the middle of a try_enqueue or try_dequeue with a stale position |
| LoggerOneCell.SameStatesExactlyFromTwoCells | code/AsyncLogger/src/async_logger.cpp:44-61 | the logger on its ring and the accounting machine over a FIFO reach the same states if and only if max_queue_size is at least 2, although only 0 is rejected |
| LoggerOnRing.EveryRunAccounts | code/AsyncLogger/src/async_logger.cpp:127-169 | in every interleaving with two cells or more: pending_count = attempts under way + queued + the record in the worker's hands before it is taken off; active_producers and it never go negative; every claimed record is, in order, written, in the active buffer, in hand or queued; accepted lags behind exactly by the producers between claim and count |
| LoggerCalls.RefusedOnlyForAReason | code/AsyncLogger/src/async_logger.cpp:115-178 | in every run on the ring, log() goes back with false only when the logger was not running, or, with DropNewest, when its attempt had found every cell of the ring taken, which is counted as dropped; until then a call of a running logger keeps its record, and only its own claim takes it over |
| LoggerCalls.BlockingKeepsRecord | code/AsyncLogger/src/async_logger.cpp:145-166 | with the Block policy a call of a logger that keeps running is never given up, whatever the others do: it goes on with its record or the record was claimed |
| LoggerOnRing.AccountsExactlyFromTwoCells | code/AsyncLogger/src/async_logger.cpp:46-61 | these accounts hold in every run if and only if max_queue_size is at least 2, although only 0 is rejected |
| LoggerOnRing.OneCellWedges | code/AsyncLogger/src/async_logger.cpp:286-325 | with max_queue_size 1: one thread logs twice before the worker looks, both calls return true, and in every continuation the worker never gets a record, nothing is written and the worker never finishes a stop |
| LoggerOneCell.OneCellQuietStopLoses | code/AsyncLogger/src/async_logger.cpp:200-228 | with max_queue_size 1: a record claimed but not published is taken in place of the one before it; when nobody is inside log() any more, stop() ends normally with the first of two accepted records lost and a moved-from value written |
| LoggerOneCell.QuietStopsKeepExactlyFromTwoCells | code/AsyncLogger/src/async_logger.cpp:200-228 | a stop() with no log() under way ends, in every run, with everything accepted written and flushed, if and only if max_queue_size is at least 2 |
| LoggerRealised.StopLosesNothingExactly | code/AsyncLogger/src/async_logger.cpp:127-169 | two cells or more: stop() that is about to store Stopping loses nothing, in every continuation up to the worker's exit, if and only if at that moment no producer is between its look at the state and its count of a pending record |
| LoggerRealised.ReadyCanLose | code/AsyncLogger/src/async_logger.cpp:297-319 | two cells or more: from every reachable such state with such a producer there is a run on the ring in which the worker exits and exactly that producer's record is accepted and never written |
| LoggerOnRing.DrainsWhenLooksAreTogether | code/AsyncLogger/src/async_logger.cpp:298-300 | on the ring, if no run separates the look at pending_count from the look at active_producers, an exit leaves an empty queue with everything accepted written and flushed |
| LoggerRealised.SplitLooksLose | code/AsyncLogger/src/async_logger.cpp:298-300 | with the two looks separate, for every queue of two cells or more, a run of the logger on its ring from the start in which log() returned true and the record is never written |
| LoggerOnRing.FailureStaysKnownExactly | code/AsyncLogger/src/async_logger.cpp:200-228 | a failure of the worker stays visible in every continuation if and only if no stop() is between its look at the state and its store of Stopping |
| LoggerOnRing.FailureCanBeHidden | code/AsyncLogger/src/async_logger.cpp:200-228 | otherwise that stop() can end in Stopped although the worker failed |
| LoggerRealised.FlushCoversExactly | code/AsyncLogger/src/async_logger.cpp:187-197 | two cells or more: a record claimed before a flush() of a running logger is in the file, in every continuation in which the flush returns by its count, if and only if it was written already, or the flush has to wait and the worker cannot stop taking records between that count and the record (every record from the count up to it is published, and the worker is not past its look there) |
| LoggerOnRing.FlushCovers | code/AsyncLogger/src/async_logger.cpp:187-197 | on the ring: when the flush returns by its count, the first accepted_count records in claim order are in the file, so are all records the exact condition names, and all claimed ones if no producer was between claim and count |
| LoggerCalls.FlushReturnsCovered | code/AsyncLogger/src/async_logger.cpp:180-197 | when a thread's flush() may return and the logger has neither failed nor stopped, the first accepted_count records at its beginning are in the file, in every run |
| LoggerOneCell.OneCellFlushLies | code/AsyncLogger/src/async_logger.cpp:187-197 | with max_queue_size 1: a flush() that begins when one record was accepted returns by its count with another record in the file and not that one |
| LoggerOneCell.FlushCoversExactlyFromTwoCells | code/AsyncLogger/src/async_logger.cpp:187-197 | the first accepted_count records in claim order are in the file whenever flush() returns by its count, in every run, if and only if max_queue_size is at least 2 |
| LoggerRealised.FlushCanMissOwnRecord | code/AsyncLogger/src/async_logger.cpp:168-176 | for every queue of three cells or more, a run on the ring in which a producer whose log() returned true flushes and may return with its own record, the last of three claimed, not in the file |
| AsyncLogger.ClaimsOnlyGrow | code/AsyncLogger/src/async_logger.cpp:146-150 | over every run the claimed records only grow at the end |
| AsyncLoggerObject.Logger.Log | code/AsyncLogger/src/async_logger.cpp:115-178 | one call without interference, on the ring: filtered below the level, refused unless running, dropped or waiting when the ring is full, else the formatted record is the last of all output still to come; each way out takes back its own counts |
| AsyncLoggerObject.Logger.WorkerPass | code/AsyncLogger/src/async_logger.cpp:284-321 | one pass without interference: empties the ring through the batch buffer into the file, no byte of the output lost or moved; returns exactly when failed or stopping with nobody active, and then everything accepted is written and flushed |
| AsyncLoggerObject.Logger.DrainQueue | code/AsyncLogger/src/async_logger.cpp:286-295 | the loop over try_dequeue ends with an empty ring and all output in place |
| AsyncLoggerObject.Logger.Start | code/AsyncLogger/src/async_logger.cpp:64-113 | starts only from Created |
| AsyncLoggerObject.Logger.RequestStop | code/AsyncLogger/src/async_logger.cpp:200-216 | Created becomes Stopped, Running becomes Stopping; tells whether there is a worker to join |
| LogRotation.LogFile.AppendRecord | code/AsyncLogger/src/async_logger.cpp:372-382 | total output (dropped, backups oldest to newest, current file, active buffer) grows by exactly the record; with a size limit the generation stays within it or holds just this record; the copy stays in bounds |
| LogRotation.LogFile.RotateIfNeeded | code/AsyncLogger/src/async_logger.cpp:409-460 | rotates exactly when the limit is on, the generation is not empty and the record would exceed it; then every backup moves up by one and only the oldest is dropped (with no backups, the current file) |
| LogRotation.LogFile.ShiftBackups | code/AsyncLogger/src/async_logger.cpp:430-459 | the shift keeps all bytes in order but the oldest backup |
| LogRotation.LogFile.RenameBackups | code/AsyncLogger/src/async_logger.cpp:430-449 | the downward rename loop never overwrites a backup |
| LogRotation.LogFile.WriteActiveBuffer | code/AsyncLogger/src/async_logger.cpp:384-400 | the buffer's bytes move to the file, the buffers change roles |
| LogRotation.LogFile.PutInBuffer | code/AsyncLogger/src/async_logger.cpp:379-381 | the record goes behind what is in the buffer |
| LogRotation.Clipped | code/AsyncLogger/src/async_logger.cpp:364-369 | a formatted record has less than 1024 bytes; a longer text is cut and ends in a newline |
| LogRotation.ShiftKeepsBytes | code/AsyncLogger/src/async_logger.cpp:435-450 | moving every backup up by one keeps the backups' bytes in order and adds the current file |

## Left out

- Weak memory: atomics are sequentially consistent; positions, ids and counters are unbounded naturals, except in `full()`.
- MpscRing.FullIsRightExactly: assumes a capacity up to 2^63 and positions below 2^63, far below the wrap.
- MpscRing.MpscRingBuffer.TryEnqueue: no other thread is inside the ring during the call, likewise for TryDequeue; their interleavings are the machine's.
- Liveness under fair scheduling: the theorems are safety properties and loop termination; a blocked thread is never promised to run.
- Sockets, epoll, eventfd, clocks and the file system: their results are inputs (times, kernel replies) or maps (files); file operations succeed in the rotation model.
- LoggerOnRing.EveryRunAccounts: a crash of the worker is a single event after which it does nothing more; what a failed write left in the file is not described.
- LoggerRealised.FlushCoversExactly: says nothing of a flush() that returns because the logger stopped or failed; the flush request flag, its target and the flush interval, which only decide when a flush is due, are replaced by an arbitrary choice, and the reads with which flush() begins are one event.
- LoggerOnRing.DrainsWhenLooksAreTogether: holds for runs whose two looks are adjacent, which the code does not ensure; LoggerRealised.StopLosesNothingExactly is the statement for all runs.
- LoggerRealised.RunRealises: states, not schedules, are matched; that a scheduler ever picks the undisturbed steps is not claimed.
- AsyncLoggerObject.Logger.constructor: requires two cells, without which the ring does not keep its records; validate_config's other refusals are not modelled.
- AsyncLoggerObject.Logger.Log: no other thread intervenes; a blocked call is reported as waiting and its later wake-up, and the flush after an error record that the result announces, are not carried out.
- AsyncLoggerObject.Logger.WorkerPass: no other thread intervenes; whether a flush is due for other reasons than the exit is an argument, and the wait for data is left out.
- AsyncLoggerObject.Logger.DrainQueue: no other thread logs during the loop, and writing does not fail.
- AsyncLoggerObject.Logger.RequestStop: ends before waking and joining the worker; look and store are one step here and two in the machine (LoggerOnRing.FailureStaysKnownExactly).
- AsyncLoggerObject.Logger.Start: opening the file and starting the thread succeed.
- BlockingQueue.NoConsumerStrandedExactly: bounds the size a push names, not the size it happens to move.
- EventLoop.NoLostWakeup: functors and channel callbacks that throw out of the loop are not modelled; nor is the saturation of the wake-up counter, whose failed write leaves the counter positive.
- EventLoop.Loop.DoPendingFunctors: no other thread queues during the call; the interleavings are the machine's.
- RpcClient.EveryCallIsInOnePlace: speaks of futures, not of callbacks; the source moves the callback away before its fail-fast branch tests it, so that branch never calls it.
- RpcClient.CountersConserve: taking an id and counting the call in totalCalls_ are one event, so the sum is not stated for the moment between the two.
- RpcClient.ReconnectDelay: the two lock regions of scheduling a reconnect are one event.
- RpcClient.RetriesAreBounded: the incremented attempt is bookkeeping only; the frame was encoded before and is sent with the attempt it started with.
- RpcClientObject.Client: state-change callbacks, connect() and disconnect() as blocking calls are left out; their lock regions are events of the machine.
- RpcClientObject.Client.CompletePending: cancelling the call's timer and calling its callback are left out; timers are events of the machine.
- ThreadPool.EveryRunConserves: one pool; the thread-local deque pointer shared by several pools is not modelled. Tasks return normally.
- PoolNotify.NobodyIsStranded: covers the global ring; work in a local deque has its owner awake (ThreadPool.OwnerOfWorkIsAwake), and whether a thief is woken for it is not stated.
- PoolObject.Pool.TrySteal: no other thread pushes or takes during the scan; the scan look by look is the machine's.
- PoolObject.Pool.AllLocalEmpty: no other thread pushes or takes during the scan; the scan look by look is the machine's.
- PoolObject.Pool.HasAnyWork: no other thread pushes or takes during the scan.
- PoolObject.Pool.WorkerTurn: one turn without interference, and without the wait.
- TimerScheduler.StopIsFinal: for stop() and wait() called outside callbacks; the early return inside a callback and joining the worker from itself are left out, and so are allocation failure and an exception from try_post, after which the source reads an unset result.
- TimerScheduler.EveryRunIsExclusive: the heap is its node sequence in order; std::priority_queue is not modelled.
- TcpConnection.EveryRunKeepsOrder: a kernel script is finite; when it ends the kernel is taken to block.
- Codec.Encode: strings grow as values here, not by appending in place.
- Text formatting of log records and timestamps, except the length bound; the space and data condition variables of the logger (a blocked producer may wake at any time).
- MoveOnlyFunction, ServiceRegistry, RpcController, RpcChannel, Serializer, Connector, TcpClient, TcpServer, EpollPoller, Socket, Acceptor, InetAddress and the logger facade: plumbing with easy members. Of RpcServer only the decode loop is used.
