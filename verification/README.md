# Logspine: what its concurrency, its formats and its transports guarantee

A Dafny model of the core of the logspine logging library, with proofs of what it promises. `dafny verify
dfyconfig.toml` checks everything. The parts, from the inside out:

- **The ring queue.** `RingMachine` runs any number of threads through `mpsc_queue` one atomic operation at a time and
  proves that it refines `TicketLog`, a queue of tickets that are claimed, published, taken and released separately. A
  plain FIFO would be the wrong specification: `enqueue` may say full while a dequeuer still holds a slot, and
  `dequeue` may say empty while a later ticket is already published. `RingRefusals` has a run for each and says
  exactly when. `RingRuns` has the results on whole runs, down to the answer of each call, and `RingProgress` bounds
  the retries. `RingQueue` is the same ring as a class over arrays, which single-threaded *is* a bounded FIFO. `Words`
  has the 64-bit arithmetic under both.
- **The asynchronous dispatcher.** `Dispatcher` puts client threads with three overflow policies, flush requests that
  travel through the queue, the batching worker and shutdown on top of the ticket log. `DispatcherInvariant` carries
  the invariant; `DispatcherFlush`, `DispatcherAccounts` and `DispatcherShutdown` prove what `flush` promises, that
  events are conserved and counted, and what shutdown drains. `DispatcherReturn` proves that flushes do return, and
  `DispatcherCalls` what becomes of every call of `dispatch`. `DispatcherCaller` says how a caller gets the full
  drain, `DispatcherEviction` runs into a counted flush request, `DispatcherRefusal` into an event dropped with room
  in the queue, and `DispatcherRelease` shows that shutdown leaves no caller hanging. `SinkFanOut` is the worker's
  loop over the sinks. `DispatcherOverRing` replaces the ticket log by the ring itself, call by call and step by step,
  and projects every run back.
- **The formats.** `Json` has a strict parser of RFC 8259 (sections 2 to 7) that knows nothing of the printer, and the
  proof that it undoes it. `EventJson`, `NetworkPayloads` and `OtlpPayload` are the printers, appending to a text as
  the source does; `EventReader`, `GelfReader`, `Framing`, `OtlpReader` and `Http` are consumers that read by name:
  records, messages, newline framing, bulk files, export requests, and requests framed by Content-Length (section 6.2
  of RFC 9112). `Text`, `JsonText` and `Events` hold what they share.
- **The transports.** `GelfChunks`, `GelfReceiver` and `GelfSink` chunk, reassemble and resend GELF messages;
  `GelfDelivery` puts them together; `GelfTransport` is the same sink with any number of writers. `TcpClient` is the
  client and the retry loop of one writer; `Transport` is the same loop for any number of writers under the lock that
  is released during backoff, system call by system call; `Delivery` says what a receiver at the other end reads in
  any run.
- **The rotating file.** `FileSink` runs the renaming loop over a map from paths to contents and proves that the files
  are always a suffix of the record history.

Conventions: a `string` stands for bytes, and one in memory is shorter than 2^63. Fields that only record history
(`log` in the ring, `hist` in the dispatcher, `complete`, `tail` and `whole` of a connection) are read by no step.
What sockets answer, whether connecting succeeds, when waits return and when timeouts expire is arbitrary in the step
machines, and given in advance to the sequential classes.

Where the code does not do what one might expect, the model follows the code:

- `docs/architecture.md` line 59 has shutdown drain the queue completely. `worker_loop` can lose one accepted item,
  one it dequeues at line 57 or 59 after testing `stopping_`, and has in its hands at line 71
  (`DispatcherShutdown.DoomedIsLost`); `FullDrainIff` says exactly when. A caller that lets a last `flush` return
  after its last dispatch loses no event (`DispatcherCaller.FlushedThenShutDown`).
- `dropped_events_` also counts evicted flush requests, which are put back and not lost (`DroppedCounts`,
  `DispatcherEviction.RequestCountsAsDropped`).
- Under drop_newest a dispatch can be refused with room in the queue, while the worker has taken an event and not
  released its slot (`DispatcherRefusal.DropsWithRoom`); `RefusesWithRoomIff` says exactly when.
- The signed subtractions of the ring overflow when its counters pass 2^63 (`RingQueue.ReachEnqueueOverflow`,
  `ReachDequeueOverflow`); `EnqueueDefinedIff` and `DequeueDefinedIff` say for which states of the queue.
- The ring accepts capacity 1 and does not work for it (`RingRuns.OneSlotOverfills`); the dispatcher never asks for it
  (`RingQueue.DispatcherQueue`).
- `max_chunk_size` is used unchecked. At 12 the chunking divides by zero and below 12 it sends nothing, or one
  datagram above the limit (`GelfChunks.SentProperlyIff`).

## Model

| member | source | states |
|---|---|---|
| `RingMachine.StepRefines` | include/logspine/detail/mpsc_queue.hpp:52-94 | Whatever one atomic step any thread takes, the ring's invariant is kept (tail <= head <= tail + capacity, each slot's sequence is one of the two values its ticket allows, one owner a slot) and the step is one the ticket log allows |
| `RingMachine.EnqueueLoad` | include/logspine/detail/mpsc_queue.hpp:54-68 | The sequence that `enqueue` loads for pos is below pos if and only if pos is the head and ticket pos - capacity is unreleased; at the head it equals pos if and only if the ticket can be claimed |
| `RingMachine.DequeueLoad` | include/logspine/detail/mpsc_queue.hpp:76-90 | The sequence that `dequeue` loads for pos is below pos + 1 if and only if pos is the tail and that ticket is unpublished; at the tail it equals pos + 1 if and only if it can be taken |
| `RingMachine.SlotsNeverShared` | include/logspine/detail/mpsc_queue.hpp:69-70 | Two threads that are between claim and publish or release are never on the same slot, so data is never read and written at once |
| `RingMachine.QuietRefusals` | include/logspine/detail/mpsc_queue.hpp:63-64 | With no operation in flight, full means exactly length = capacity and empty means exactly length = 0 |
| `RingRefusals.FullWithRoomIff` | include/logspine/detail/mpsc_queue.hpp:56-64 | With fewer than capacity tickets queued `enqueue` says full if and only if a dequeuer still holds the slot of the ticket one lap before the head |
| `RingRefusals.EmptyWithQueuedIff` | include/logspine/detail/mpsc_queue.hpp:78-86 | With tickets queued `dequeue` says empty if and only if an enqueuer has claimed the oldest and not yet published it |
| `RingRefusals.SaysFullThoughRoom` | include/logspine/detail/mpsc_queue.hpp:56-64 | A run with two slots in which `enqueue` says full with one ticket queued |
| `RingRefusals.SaysEmptyThoughQueued` | include/logspine/detail/mpsc_queue.hpp:78-86 | A run in which `dequeue` says empty although the second of two tickets is published |
| `RingProgress.EnqueueOvertaken` | include/logspine/detail/mpsc_queue.hpp:54-68 | An `enqueue` that goes back, other than by a swap that fails although head_ is unchanged, has been overtaken: since it loaded head_ another thread has claimed the very ticket it was after |
| `RingProgress.DequeueOvertaken` | include/logspine/detail/mpsc_queue.hpp:76-90 | The same for `dequeue`, tail_, and a thread that took the ticket |
| `RingProgress.StepsBounded` | include/logspine/detail/mpsc_queue.hpp:52-94 | In any run a thread makes at most six steps a call and two more for each ticket others claim or take meanwhile and each spurious failure; its retries are at most as many as the others' claims, or takes |
| `RingProgress.ThreadCanStep` | include/logspine/detail/mpsc_queue.hpp:52-94 | A thread inside a call can always take a step, and one that is not a spurious failure |
| `RingRuns.RunIsHistory` | include/logspine/detail/mpsc_queue.hpp:52-94 | Every run of any number of interleaved enqueuers and dequeuers is a history of the ticket log |
| `RingRuns.RunDelivers` | include/logspine/detail/mpsc_queue.hpp:52-94 | In any run, a dequeue returns exactly the value stored under its ticket; one thread claimed and published that ticket, one thread took and returned it, in this order, and no ticket is claimed, published, taken or returned twice |
| `RingRuns.CallAnswers` | include/logspine/detail/mpsc_queue.hpp:52-94 | In any run a call that returns has answered, exactly once: an `enqueue` has said full, or has claimed one ticket with the value it was called with and published that ticket; a `dequeue` has said empty, or has taken one ticket and returned it |
| `RingRuns.CallSoFar` | include/logspine/detail/mpsc_queue.hpp:52-94 | In any run a call still going on has done no more than its position says: nothing, or claimed or taken the ticket it has in hand |
| `RingRuns.RunTakesInOrder` | include/logspine/detail/mpsc_queue.hpp:82 | In any run tickets are taken in increasing order |
| `RingMachine.LoadsAreExact` | include/logspine/detail/mpsc_queue.hpp:56-58 | In every invariant state with head + capacity below 2^63, what either operation loads is below 2^63, and the signed differences at lines 58 and 80 are defined and the unbounded ones |
| `RingRuns.OneSlotOverfills` | include/logspine/detail/mpsc_queue.hpp:33-36 | Capacity 1, which the constructor accepts, breaks the protocol: a reachable state holds two claimed tickets in one slot |
| `RingRuns.NeverOverfillsIff` | include/logspine/detail/mpsc_queue.hpp:33-36 | The bound head <= tail + capacity holds in every reachable state if and only if the capacity is at least 2 |
| `TicketLog.SettledRefusals` | include/logspine/detail/mpsc_queue.hpp:63-64 | In a settled log a refused claim means the queue is full and a refused take that it is empty |
| `TicketLog.TakenInOrder` | include/logspine/detail/mpsc_queue.hpp:82 | Along any history tickets are taken in increasing order |
| `TicketLog.TicketsDiffer` | include/logspine/detail/mpsc_queue.hpp:52-94 | Along any history each ticket is claimed, published, taken and returned at most once |
| `TicketLog.LifeOfATicket` | include/logspine/detail/mpsc_queue.hpp:52-94 | A returned ticket was claimed with that very value, then published, then taken, in this order |
| `RingQueue.MpscQueue.constructor` | include/logspine/detail/mpsc_queue.hpp:32-43 | A power of two of at least 2 slots starts out as the empty queue |
| `RingQueue.MpscQueue.Create` | include/logspine/detail/mpsc_queue.hpp:32-36 | For every 64-bit capacity: null, for the exception, exactly when it is no power of two |
| `RingQueue.MpscQueue.Enqueue` | include/logspine/detail/mpsc_queue.hpp:52-72 | Single-threaded, the ring is a bounded FIFO, also after its 64-bit counters have wrapped around: it refuses exactly when full and otherwise appends. Required is only that the signed subtraction at line 58 is defined |
| `RingQueue.MpscQueue.Dequeue` | include/logspine/detail/mpsc_queue.hpp:74-94 | It fails exactly when empty, leaving the argument as it was, and otherwise removes the oldest value. Required is only that the subtraction at line 80 is defined |
| `RingQueue.MpscQueue.EnqueueDefinedIff` | include/logspine/detail/mpsc_queue.hpp:57-58 | The subtraction of an enqueue overflows if and only if the queue is full, its head has passed 2^63 (modulo 2^64) and its oldest slot's sequence has not |
| `RingQueue.MpscQueue.DequeueDefinedIff` | include/logspine/detail/mpsc_queue.hpp:79-80 | The subtraction of a dequeue overflows if and only if the queue is empty at ticket 2^63 - 1 (modulo 2^64) |
| `RingQueue.ReachEnqueueOverflow` | include/logspine/detail/mpsc_queue.hpp:57-58 | For every capacity of at least 2 that the constructor accepts, a run of calls after which the queue is full with its head at 2^63 and the next `enqueue` overflows |
| `RingQueue.ReachDequeueOverflow` | include/logspine/detail/mpsc_queue.hpp:79-80 | For every capacity of at least 2 that the constructor accepts, a run of calls after which the queue is empty, 2^63 - 1 values have passed through and the next `dequeue` overflows |
| `RingQueue.PassThrough` | include/logspine/detail/mpsc_queue.hpp:52-94 | As long as fewer than 2^63 tickets are claimed, values put in and taken out one at a time leave the queue empty, every call being defined |
| `RingQueue.WindowAppend` | include/logspine/detail/mpsc_queue.hpp:69 | Writing the slot of the head extends the FIFO contents by that value |
| `RingQueue.WindowDrop` | include/logspine/detail/mpsc_queue.hpp:91 | Advancing the tail drops the first of the FIFO contents |
| `RingQueue.DispatcherQueue` | src/async_dispatcher.cpp:11-19 | The dispatcher's queue always has a capacity the protocol works for, the rounded-up one; construction fails exactly for capacity 0 or above 2^63 or batch size 0 |
| `Words.RoundUpToPowerOf2` | include/logspine/detail/mpsc_queue.hpp:11-21 | Up to 2^63 the result is the least power of two >= max(n, 2); above, the 64-bit sum wraps to 0 |
| `Words.SmearDoubles` | include/logspine/detail/mpsc_queue.hpp:14-19 | One smearing step (shift by w, or) doubles the run of ones below the highest bit |
| `Words.PowerTest` | include/logspine/detail/mpsc_queue.hpp:34 | `c & (c - 1)` is zero exactly for powers of two |
| `Words.MaskIsSlot` | include/logspine/detail/mpsc_queue.hpp:56 | For a power-of-two capacity `pos & mask` is pos modulo the capacity |
| `Words.SlotsDistinct` | include/logspine/detail/mpsc_queue.hpp:56 | Tickets less than one lap apart have different slots |
| `Words.SignedDifference` | include/logspine/detail/mpsc_queue.hpp:58 | For two words below 2^63 the difference of the signed casts is defined and is the unbounded difference; `RingMachine.LoadsAreExact` shows the loaded ones to be such words |
| `Words.ExactDifference` | include/logspine/detail/mpsc_queue.hpp:58 | For any two tickets at most 2^63 apart, the difference of the signed casts of their low 64 bits is the true one whenever it is defined |
| `Words.OverflowsIff` | include/logspine/detail/mpsc_queue.hpp:58 | It is undefined if and only if the position has passed 2^63 (modulo 2^64) and the sequence behind it has not |
| `Words.SlotOfWord` | include/logspine/detail/mpsc_queue.hpp:56 | Wrapping around at 2^64 does not change the slot of a ticket |
| `Words.SignedDifferenceOverflows` | include/logspine/detail/mpsc_queue.hpp:58 | At 2^63 it does: the signed subtraction of neighbouring tickets leaves the 64-bit range |
| `DispatcherInvariant.StepKeeps` | src/async_dispatcher.cpp:49-253 | Every step of any client, of the worker and of shutdown keeps the dispatcher's invariant, only appends to its history and never lowers completed_flush_id_ |
| `DispatcherInvariant.ClientKeeps` | src/async_dispatcher.cpp:109-213 | The client steps of dispatch and flush, under all three overflow policies, keep the invariant |
| `DispatcherInvariant.WorkerKeeps` | src/async_dispatcher.cpp:49-107 | The worker's steps keep it, and each is a queue operation the ticket log allows |
| `DispatcherInvariant.StopperKeeps` | src/async_dispatcher.cpp:235-258 | The steps of shutdown keep it |
| `DispatcherInvariant.RunExtends` | src/async_dispatcher.cpp:94-101 | Over any stretch of any run completed_flush_id_ never decreases, including the jump to the maximum at shutdown, and nothing processed, taken or claimed is ever taken back |
| `DispatcherFlush.FlushDelivers` | src/async_dispatcher.cpp:32-39 | When flush f can return before stopping_ is set, every event published before f's fetch_add has been offered to all sinks with the sinks flushed afterwards, or was evicted, whichever flush's request raised completed_flush_id_ |
| `DispatcherFlush.RequestSettles` | src/async_dispatcher.cpp:94-101 | When the worker processes the request of flush f, all tickets claimed before f's fetch_add are settled, even if the request was evicted and put back in between |
| `DispatcherFlush.RequestInOnePlace` | src/async_dispatcher.cpp:147-155 | Before stopping_ is set every issued flush id is in exactly one place: with its caller, with a producer that evicted it, in the ring, with the worker, or processed |
| `DispatcherFlush.ClientPlaces` | src/async_dispatcher.cpp:176-213 | No client step loses or duplicates a flush request |
| `DispatcherReturn.ProcessedIsCompleted` | src/async_dispatcher.cpp:94-103 | In every reachable state completed_flush_id_ has reached the id of every processed flush request but the one the worker is just processing |
| `DispatcherReturn.ProcessedFlushReturns` | src/async_dispatcher.cpp:32-39 | A flush whose request has been processed can return |
| `DispatcherReturn.WorkerReachesRequest` | src/async_dispatcher.cpp:54-103 | With everything up to a flush request published, a bounded number of the worker's own steps raises completed_flush_id_ to it, whatever other threads do, unless the request is evicted or shutdown begins |
| `DispatcherReturn.WaitEnds` | src/async_dispatcher.cpp:32-39 | From every reachable state before shutdown in which a flush waits there is a run in which it returns |
| `DispatcherReturn.AFlushReturns` | src/async_dispatcher.cpp:32-39 | A reachable state in which the one flush made has returned and stopping_ is not set |
| `DispatcherReturn.ReturnedFlushDelivered` | src/async_dispatcher.cpp:32-39 | When a call of `flush` returns before stopping_ is set, every event published before the call has been offered to all sinks with the sinks flushed afterwards, or was evicted |
| `DispatcherCalls.DispatchesConserved` | src/async_dispatcher.cpp:109-174 | In every state of every run: calls of `dispatch` made = still running + accepted events + refusals |
| `DispatcherCalls.DispatchAnswers` | src/async_dispatcher.cpp:109-174 | A call of `dispatch` that returns was refused, or published the very event it was called with, under a ticket claimed during the call |
| `DispatcherCalls.StepRefuses` | src/async_dispatcher.cpp:110-172 | A refusal happens only with stopping_ found set, or under drop_newest, or under block with a timeout |
| `DispatcherCalls.PolicyRefusesIff` | src/async_dispatcher.cpp:143-172 | A client at its overflow policy can be refused there if and only if the policy is drop_newest, or block with a timeout |
| `DispatcherCalls.NothingRefused` | src/async_dispatcher.cpp:143-172 | Before shutdown drop_oldest, and block without a timeout, have refused nothing, in every reachable state |
| `DispatcherCalls.QueueSaidFull` | src/async_dispatcher.cpp:128-143 | A client at its overflow policy, about to refuse its event, wait, or evict another, was last told by the queue that it is full |
| `DispatcherAccounts.EventsConserved` | src/async_dispatcher.cpp:49-103 | In every reachable state accepted events = written + lost + held by the worker + in the ring + evicted, as sets without overlap and as counts, and nothing is lost before stopping_ is set |
| `DispatcherAccounts.WorkerPartition` | src/async_dispatcher.cpp:54-104 | Each ticket the worker took is exactly one of processed, lost, held |
| `DispatcherAccounts.DroppedCounts` | src/async_dispatcher.cpp:109-174 | Once pending counter updates have settled, dropped_events_ = refused dispatches + evicted events + evicted flush requests; under block and drop_newest it is the refused dispatches alone |
| `DispatcherEviction.RequestCountsAsDropped` | src/async_dispatcher.cpp:147-155 | A reachable state in which dropped_events_ is 1 although no event was dropped and no dispatch refused: a flush request was evicted and is being put back |
| `DispatcherAccounts.OfferedInOrder` | src/async_dispatcher.cpp:91-103 | Before stopping_ is set the events offered to the sinks are a prefix of the accepted events minus exactly the evicted ones, in ticket order |
| `DispatcherAccounts.OfferedWithoutEviction` | src/async_dispatcher.cpp:143-172 | Under block and drop_newest nothing is evicted and the prefix is of the accepted events themselves |
| `DispatcherAccounts.BatchWasDequeued` | src/async_dispatcher.cpp:79-84 | The batch never exceeds batch_size and holds only published items the worker dequeued |
| `DispatcherRefusal.RefusesWithRoomIff` | src/async_dispatcher.cpp:57-84 | In every reachable state the queue says full with room in it if and only if a thread that took the ticket one lap back is about to release its slot; unless the policy is drop_oldest that thread is the worker |
| `DispatcherRefusal.DropsWithRoom` | src/async_dispatcher.cpp:115-145 | A run in which drop_newest refuses a dispatch while one event is queued in two slots, because the worker is between taking an event and releasing its slot |
| `DispatcherOverRing.RunProjects` | src/async_dispatcher.cpp:49-213 | With every queue call run step by step on the ring of `RingMachine`, each caller going on with nothing but the ring's answer, every run is a run of `Dispatcher` over the ticket log, with stuttering |
| `DispatcherOverRing.RingProjects` | include/logspine/detail/mpsc_queue.hpp:52-94 | And a run of the ring |
| `DispatcherOverRing.WholeStepProjects` | src/async_dispatcher.cpp:49-213 | Each step keeps the two invariants and the agreement of callers and ring threads about where each is and what it holds |
| `DispatcherOverRing.FlushDeliversOverRing` | src/async_dispatcher.cpp:32-39 | What `flush` promises holds of the dispatcher over the ring |
| `DispatcherOverRing.CallerCanStep` | src/async_dispatcher.cpp:109-213 | A client in or before a queue call always has a step of it to take |
| `DispatcherRelease.WaitsEnd` | src/async_dispatcher.cpp:246-258 | Once shutdown has raised completed_flush_id_, every waiting flush can return at once |
| `DispatcherRelease.ShutdownWaits` | src/async_dispatcher.cpp:254-256 | When shutdown has returned the worker has finished, its last flush of the sinks made |
| `DispatcherRelease.AtMostNine` | src/async_dispatcher.cpp:109-258 | From then on every call of dispatch or flush still running takes at most nine more steps of its own, however the threads are scheduled |
| `DispatcherRelease.CallsGoOn` | src/async_dispatcher.cpp:109-258 | And each of these steps is possible |
| `DispatcherShutdown.ShutdownTerminates` | src/async_dispatcher.cpp:71-78 | With no call in flight when stopping_ is set, the worker takes a bounded number of steps and can always take the next one until it has finished |
| `DispatcherShutdown.ShutdownDrains` | src/async_dispatcher.cpp:71-106 | A finished worker has offered everything still queued, in order, with at most the one item it had in hand missing, and flushed the sinks at the end |
| `DispatcherShutdown.FullDrainIff` | src/async_dispatcher.cpp:57-71 | The drain is complete if and only if, when stopping_ was set, the worker neither held an item it had yet to decide about at line 71 nor was past its test of stopping_ and about to dequeue, at line 57 or 59, with a published ticket waiting |
| `DispatcherShutdown.Finishes` | src/async_dispatcher.cpp:49-107 | From any point of the closing phase there is a run on which the worker finishes |
| `DispatcherShutdown.DoomedExists` | src/async_dispatcher.cpp:57-71 | For every capacity >= 2 there is a reachable state in which the one accepted event is about to be lost |
| `DispatcherShutdown.DoomedIsLost` | src/async_dispatcher.cpp:57-107 | For every capacity >= 2 there is a reachable state and a finished shutdown from it after which the one accepted event was offered to no sink |
| `DispatcherCaller.FlushedThenShutDown` | src/async_dispatcher.cpp:32-39 | What a caller can see to: if every event was accepted before a flush began and that flush has been let through when shutdown sets stopping_, then after any finished shutdown every event has been offered to all sinks or was evicted; under block and drop_newest every event has been offered |
| `SinkFanOut.Sinks.CallAll` | src/async_dispatcher.cpp:215-233 | Every sink gets the call whatever the others throw, and each throw counts as one failure |
| `SinkFanOut.Sinks.OfferBatch` | src/async_dispatcher.cpp:91-103 | The loop over a batch gives every sink the writes and flushes of the batch in order |
| `SinkFanOut.Sinks.ProcessNext` | src/async_dispatcher.cpp:91-96 | One step of the worker at line 91 gives every sink the call that the step of the dispatcher stands for, whichever sinks throw |
| `SinkFanOut.Sinks.FlushLast` | src/async_dispatcher.cpp:106 | The last step flushes every sink once more |
| `SinkFanOut.EachReceivesWhatIsDue` | src/async_dispatcher.cpp:91-106 | In every state of every run each sink has received exactly the calls for the items processed, in that order, and after the last step one flush more |
| `SinkFanOut.FlushReachesSinks` | src/async_dispatcher.cpp:32-39 | When a call of `flush` returns before stopping_ is set, each sink has received a write of every event published before the call and after it a flush, evicted events apart |
| `SinkFanOut.WrittenInOrder` | src/async_dispatcher.cpp:91-103 | In every state of every run, before anything is lost, the writes a sink has received are a prefix of the accepted events minus exactly the evicted ones, in ticket order |
| `Json.TextUndone` | src/json.cpp:51-136 | A strict RFC 8259 parser applied to a printed value succeeds, consumes all of it and gives the value back |
| `Json.EscapeUndone` | src/json.cpp:97-136 | Reading an escaped string back gives the same bytes |
| `Json.EscapeInjective` | src/json.cpp:97-136 | Different strings have different escapes |
| `Json.PrintInjective` | src/json.cpp:51-136 | Different values have different texts |
| `Json.PrintNoControls` | src/json.cpp:125-132 | No byte below 0x20 is ever written |
| `EventJson.AppendEscaped` | src/json.cpp:97-136 | The loop over the bytes appends the escape of the whole string |
| `EventJson.AppendString` | src/json.cpp:22-26 | Appends the quoted string |
| `EventJson.AppendFieldValue` | src/json.cpp:51-78 | Appends the text of the field's JSON value: integers in decimal, doubles that are not finite as null |
| `EventJson.AppendFieldsObject` | src/json.cpp:80-93 | Appends one object with the fields as members, in order |
| `EventJson.FieldToJson` | src/json.cpp:138-142 | The text of a field value parses to its JSON value |
| `EventJson.ToJson` | src/json.cpp:144-204 | The text of any event is one JSON object with the event's members in order, parses strictly to it and holds no control byte |
| `EventJson.ToJsonLinesRecord` | src/json.cpp:206-210 | The record is that text and a newline |
| `EventReader.EventRecovered` | src/json.cpp:144-210 | A consumer that looks members up by name gets every part of the event back: strings byte for byte, integers, booleans, nulls, fields in order, and which optional parts were there |
| `EventReader.EventInjective` | src/json.cpp:144-204 | Events with the same text mean the same |
| `EventReader.IntegerRead` | src/json.cpp:59-60 | The number token of any integer reads back as that integer |
| `Framing.SplitLines` | src/json.cpp:206-210 | A newline splitter finds exactly the lines that were written, and the unfinished rest |
| `Framing.StreamReads` | src/json.cpp:206-210 | A stream of records cut anywhere splits into the complete records, each reading back as its event, and the piece that was cut off |
| `Framing.MakeActionLine` | src/sinks/elastic_bulk_file_sink.cpp:12-19 | The action line is the JSON of the index action and a newline |
| `Framing.ActionRead` | src/sinks/elastic_bulk_file_sink.cpp:12-19 | A consumer finds the index name in the action line |
| `Framing.BulkFile.constructor` | src/sinks/elastic_bulk_file_sink.cpp:23-30 | The file starts empty, or with what it held when it is opened to append |
| `Framing.BulkFile.Write` | src/sinks/elastic_bulk_file_sink.cpp:32-43 | With the default formatter a write adds an action line and a record |
| `Framing.BulkFile.WriteFormatted` | src/sinks/elastic_bulk_file_sink.cpp:38-41 | With a formatter the buffer follows the action line as it is |
| `Framing.AppendsCleanlyIff` | src/sinks/elastic_bulk_file_sink.cpp:24 | What is written to a file that held something already splits into the bulk lines if and only if that was empty or ended with a newline |
| `Framing.BulkReads` | src/sinks/elastic_bulk_file_sink.cpp:12-45 | From an empty file, or one that ended with a newline, the lines written are strictly alternating: the index action, then an event that reads back as it was |
| `NetworkPayloads.MakeGelfPayload` | src/sinks/network_payloads.cpp:17-48 | For every event the GELF payload is one JSON text that parses to the version, host, message, timestamp, level, logger and underscored fields in order |
| `NetworkPayloads.AppendGelfNumbers` | src/sinks/network_payloads.cpp:26-34 | The timestamp is the given token, or 0.0 if it is not finite, and the level the syslog one |
| `GelfReader.GelfRecovered` | src/sinks/network_payloads.cpp:17-48 | A server that reads the payload of any event by name finds version 1.1, the host, the message, the seconds or 0.0, the syslog severity of the level's name, and the logger and all fields as additional fields, in order |
| `Events.ParseLevel` | src/level.cpp:21-31 | Exactly the names of the levels and warning are accepted, each for its level |
| `Events.LevelReadsBack` | src/level.cpp:16-31 | parse_level undoes to_string for every level and rejects what to_string makes of other bytes |
| `Events.GelfLevelByName` | src/level.cpp:33-50 | The syslog severities: info 6, warn 4, error 3, fatal 2, off 1, everything else 7 |
| `OtlpPayload.MakeOtlpJson` | src/sinks/otlp_http_sink.cpp:18-91 | For every event and choice of optional ids the body is one JSON text that parses to the export request |
| `OtlpPayload.RequestText` | src/sinks/otlp_http_sink.cpp:22-25 | The literals before, between and after the service name and the log record close exactly the brackets they open |
| `OtlpPayload.AddString` | src/sinks/otlp_http_sink.cpp:28-37 | Appends one more string member to the open record |
| `OtlpPayload.AppendAttributes` | src/sinks/otlp_http_sink.cpp:70-87 | Appends one attribute for each field, its JSON inside a JSON string |
| `OtlpReader.RequestRecovered` | src/sinks/otlp_http_sink.cpp:18-91 | A collector that reads the body of any event by name finds the time, the severity's name and four times its number, the trace id as traceId and the span id as spanId, each if and only if it is there, the message as body and the service under service.name |
| `OtlpReader.RequestAttributes` | src/sinks/otlp_http_sink.cpp:69-87 | Walking to the log record and decoding each attribute twice gives the JSON value of every field, in order |
| `Http.MakeHttpPost` | src/sinks/otlp_http_sink.cpp:93-102 | The request is its five head lines, an empty line and the body |
| `Http.PostRead` | src/sinks/otlp_http_sink.cpp:93-102 | A receiver framing by Content-Length reads one request off the front of any stream, whatever bytes the body holds |
| `Http.PostMeans` | src/sinks/otlp_http_sink.cpp:93-102 | By name the request is a POST to the path, its host field the host and its content type JSON, with the body whole |
| `Http.RequestStable` | src/sinks/otlp_http_sink.cpp:93-102 | A receiver that has a complete request reads the same one when more bytes arrive |
| `Http.CutWaits` | src/sinks/otlp_http_sink.cpp:93-102 | No strict prefix of a request is taken for a request |
| `Http.PostsRead` | src/sinks/otlp_http_sink.cpp:93-102 | Any number of concatenated requests, with part of another after them, split into exactly the complete ones and that part |
| `GelfChunks.Chunk` | src/sinks/gelf_udp_sink.cpp:65-95 | What the chunking does for every setting: one datagram, the chunks, a division by zero at 12, and below 12 nothing or one datagram with the whole payload |
| `GelfChunks.MakeChunk` | src/sinks/gelf_udp_sink.cpp:78-91 | One chunk: magic, id lowest byte first, number, count, its piece of the payload |
| `GelfChunks.ChunksFit` | src/sinks/gelf_udp_sink.cpp:66-76 | Above 12 there are 1 to 128 chunks and every one fits max_chunk_size |
| `GelfChunks.SentProperlyIff` | src/sinks/gelf_udp_sink.cpp:66-76 | A payload above the limit goes out, and in datagrams within the limit, if and only if max_chunk_size > 12 |
| `GelfChunks.WrappedTotalIs` | src/sinks/gelf_udp_sink.cpp:68-69 | Below 12 the unsigned arithmetic wraps: the number of chunks is 0, or 1 for a tiny payload |
| `GelfChunks.IdBytesInjective` | src/sinks/gelf_udp_sink.cpp:82-84 | Different 64-bit ids have different id bytes |
| `GelfReceiver.Reassembled` | src/sinks/gelf_udp_sink.cpp:76-92 | Arrivals in any order, with any duplicates and any other traffic, rebuild the message exactly when every chunk has arrived, as the payload or its first 128 * (max_chunk_size - 12) bytes |
| `GelfReceiver.CarriedWhole` | src/sinks/gelf_udp_sink.cpp:71-76 | Payloads of up to 128 * (max_chunk_size - 12) bytes get across whole, longer ones that far |
| `GelfReceiver.AllReassembled` | src/sinks/gelf_udp_sink.cpp:76-92 | The same for every one of any number of messages in the air together, if their 64-bit ids differ |
| `GelfReceiver.HoldsAlways` | src/sinks/gelf_udp_sink.cpp:76-92 | At any moment the receiver holds exactly the pieces that have arrived |
| `GelfSink.UdpClient.Send` | src/net/socket.cpp:233-257 | A send goes through interruptions only; the first other answer decides: accepted, and the datagram is on the wire, or refused, and the socket is closed and the write fails |
| `GelfSink.Sink.WriteChunks` | src/sinks/gelf_udp_sink.cpp:97-132 | For one writer at a time: what is sent is a strict beginning of the chunks for each failed round and, on normal return, all of them once; a round fails for each refusal by the system, and for a socket found closed, and failures counts the failed rounds; failures = reconnects, plus one if the retries ran out; without a refusal the first round succeeds. `GelfTransport` has any number of writers |
| `GelfSink.Sink.Write` | src/sinks/gelf_udp_sink.cpp:45-132 | For one writer at a time and every setting but the undefined one: when a write returns every chunk of the payload is on the wire, however many rounds it took |
| `GelfDelivery.ArrivalsRebuild` | src/sinks/gelf_udp_sink.cpp:65-132 | Whatever part of what any number of writes put on the wire arrives, in any order and repeated: a write's payload is rebuilt exactly when all its chunks have arrived |
| `GelfDelivery.ReturnedWritesArrive` | src/sinks/gelf_udp_sink.cpp:65-132 | If nothing sent is lost on the way, every write that returned has its payload rebuilt at the server, however many rounds of resending it took |
| `GelfTransport.StepKeeps` | src/sinks/gelf_udp_sink.cpp:97-132 | Every step of any writer, the lock being released during backoff, keeps the invariant of lock, rounds, wire, tries and statistics |
| `GelfTransport.RunSends` | src/sinks/gelf_udp_sink.cpp:97-132 | In any interleaving a write that returned has all its chunks on the wire in order and in one piece, apart from those of every other such write |
| `GelfTransport.RunTries` | src/sinks/gelf_udp_sink.cpp:100-132 | No write goes more than max_write_retries + 1 rounds, one that runs out of retries exactly that many, one whose reconfiguration throws fewer |
| `GelfTransport.RunStatistics` | src/sinks/gelf_udp_sink.cpp:98-124 | Whenever the lock is free, write_failures = reconnect_attempts + writes that ran out of retries, and write_attempts counts the writes |
| `GelfTransport.FailuresAreTroubles` | src/sinks/gelf_udp_sink.cpp:103-120 | In any run write_failures is the number of sends that failed or found no socket, of all writers, and each leaves the socket closed |
| `GelfTransport.ArrivalsRebuild` | src/sinks/gelf_udp_sink.cpp:65-132 | In any interleaving of any number of writers, whatever arrives of the wire in any order and repeated: a payload is rebuilt exactly when all its chunks have arrived |
| `GelfTransport.ReturnedWritesArrive` | src/sinks/gelf_udp_sink.cpp:65-132 | If nothing sent is lost on the way, every write that returned has its payload rebuilt at the server |
| `GelfDelivery.PayloadIsNoChunk` | src/sinks/network_payloads.cpp:17-20 | A GELF payload sent in one piece is never taken for a chunk |
| `TcpClient.Client.SendAll` | src/net/socket.cpp:183-205 | Partial sends and interruptions included, by the answers of ::send that it consumed: it succeeds if and only if none of them was an error or 0, with the whole payload on the connection; otherwise the failing answer is the last, the only one, and comes before the end, what was taken before it is on the connection, and the connection is closed |
| `TcpClient.Client.Connect` | src/net/socket.cpp:176-181 | A new empty stream and connected, or not connected |
| `TcpClient.Sink.Write` | src/sinks/tcp_json_lines_sink.cpp:44-77 | For a writer nobody overtakes: on return the last connection has got the payload once, the ones before it at most a strict part each; every failed ::send and every failed connection attempt it went through counts one failure; on a throw all retries were used; without trouble the first try succeeds |
| `Transport.StepKeeps` | src/sinks/tcp_json_lines_sink.cpp:44-77 | Every step of any writer keeps the invariant of locks, connections, payloads, tries and statistics |
| `Transport.RunStreams` | src/sinks/tcp_json_lines_sink.cpp:44-77 | In any interleaving each connection's bytes are whole payloads and then at most one strict prefix, and that only where the connection ended or a writer is sending |
| `Transport.RunDelivers` | src/sinks/tcp_json_lines_sink.cpp:51-54 | A write that returned has its payload whole on exactly one connection, once, and whole payloads belong to writes that returned |
| `Transport.RunTries` | src/sinks/tcp_json_lines_sink.cpp:47-72 | No write tries more than max_write_retries + 1 times, and one that throws has tried exactly that often |
| `Transport.RunStatistics` | src/sinks/tcp_json_lines_sink.cpp:44-70 | Whenever the lock is free, write_failures = reconnect_attempts + writes that ran out of retries, and write_attempts counts the writes |
| `Transport.RunConnections` | src/sinks/tcp_json_lines_sink.cpp:102-106 | In any run at most one connection more is made than there were failures: a healthy connection is used again |
| `Transport.FailuresAreTroubles` | src/sinks/tcp_json_lines_sink.cpp:49-70 | In any run write_failures is the number of failed system calls, sends and connection attempts, of all writers, and each closes the connection |
| `Delivery.LinesReceived` | src/sinks/tcp_json_lines_sink.cpp:44-77 | In any run, a JSON Lines receiver of any connection that is not being written to reads exactly the events of the writes that returned on it, in order, and one unfinished piece |
| `Delivery.PostsReceived` | src/sinks/otlp_http_sink.cpp:134-171 | In any run, Content-Length framing of such a connection gives exactly the bodies of the writes that returned on it and leaves a cut-off request unread |
| `FileSink.FileSink.constructor` | src/sinks/file_sink.cpp:12-24 | A truncating start has one empty generation, whatever files an earlier process has left |
| `FileSink.RotatedName` | src/sinks/file_sink.cpp:43-52 | Rotated file i is the path, a dot and i in decimal without leading zeros |
| `FileSink.FileSink.MoveFiles` | src/sinks/file_sink.cpp:55-99 | The descending loop moves every generation up by one, drops the last and touches no other file |
| `FileSink.FileSink.RotateIfNeeded` | src/sinks/file_sink.cpp:26-103 | It rotates exactly when the open file has reached a limit above 0, and the record history stays the same |
| `FileSink.FileSink.Write` | src/sinks/file_sink.cpp:105-121 | A record goes whole into the open file, after a rotation if that one is full |
| `FileSink.MoveStep` | src/sinks/file_sink.cpp:56-97 | One turn of the loop: remove the last target, then move the next lower generation if it exists |
| `FileSink.FileSink.WhatIsOnDisk` | src/sinks/file_sink.cpp:26-121 | After any run of writes the files path.k, ..., path.1, path, with k = min(rotations, N), concatenated are a suffix of all records, and each rotated one reached the limit only with its last record; beyond them are the files found at the start, moved up once a rotation |
| `FileSink.FilesReadBack` | src/sinks/file_sink.cpp:26-121 | With JSON records the concatenated files read back as exactly the latest events: rotation has split none |

## Left out

- C++ weak memory orders: every atomic access is one sequentially consistent step.
- The many-threaded ring's counters are unbounded, which `RingMachine.LoadsAreExact` justifies while head + capacity is below 2^63; the single-threaded ring has the 64-bit ones.
- Flush ids beyond 2^64 - 2.
- Condition variables, the `sleeping_` hint, `mutex_` around waits and wall-clock timeouts: a wait may return at any moment and a timeout expire at any moment; nothing is claimed that rests on the 10 ms and 50 ms polls.
- Dispatch or flush calls racing with the destructor: their absence is assumed where shutdown is described (`DispatcherShutdown.Quiet`).
- That the worker offers one item to all sinks is one step of `Dispatcher`; `SinkFanOut` is the loop it stands for and keeps in step with it.
- Name resolution, socket creation, Winsock, UDP configuration beyond its success or failure, console streams.
- zlib: compressed GELF payloads and compressed rotated files.
- Double formatting, timestamp text, thread-id text: given tokens, a printed double being any number token of RFC 8259; UTF-8 validity, which the code does not check.
- Time: sleeping and the doubling of the backoff.
- WriteChunks: the class `GelfSink.Sink` has one writer at a time; `GelfTransport` has any number, on values.
- Uniqueness of GELF message ids, which come from a clock: `AllReassembled`, `GelfDelivery` and `GelfTransport` assume that those of the messages in the air differ.
- A file sink opened to append, failed renames, whose error codes the code ignores, and the stream's buffering.
- `write_attempts`, `write_failures` and `reconnect_attempts` wrapping around at 2^64; the text of the last error.
- Level filtering, formatters other than as given text, `format_human_readable`, logger, registry, MDC, synchronous dispatcher, macros: short members that would only add easy contracts.
