# Boost.Log: the asynchronous sink and the text path, verified

A Dafny 4.11 model of the parts of Boost.Log in which the order of steps decides the result.

The **sink pipeline** is modelled as step systems over shared state, with a place for every thread. A mutex-protected
stretch up to its next wait is one step, unless another thread can see it half done; every unprotected access is a step
of its own, and waits may end spuriously.

* `QueueProtocol`, `QueueInvariants`, `QueueTheorems` and `OverflowTheorems` cover `bounded_fifo_queue`,
  `bounded_ordering_queue` and `unbounded_ordering_queue` with both overflow strategies: one step system, configured by
  discipline, capacity and strategy, because the three sources share their control flow. `QueueObjects` holds the same
  critical sections as methods of a class that updates its fields the way the sources do, each proved to have the
  effect the step system gives it. `SectionEnds` says of every section how it ends, and that it can be carried out.
* `EventQueue` covers `unbounded_fifo_queue`, where nothing but the queue and the event is synchronized, at single
  accesses; `EventQueueObject` is the object itself, for stretches without other threads, whose accesses are steps of
  that system.
* `QueueInterface` states what a frontend may expect of a queue and proves both kinds of strategy provide only that.
* `AsyncFrontend`, `FrontendInvariants` and `FrontendTheorems` cover `asynchronous_sink` with any number of threads that
  log, feed, flush and stop. `DelegatedFlush` and `EveryAnswer` say what has been offered when a running feeder answers
  a flush, `FlushReturns` what has been when the call returns. `LeftBehind`, `WaitingStops` and `HeldBack` say which
  flushes, stops and producers can wait for ever; `Trips` builds their runs. `SinkObject` holds the feeding loop as
  methods over a queue object, for stretches in which no other thread acts.
* `Pipeline` and `PipelineTheorems` put the two step systems together: the frontend over a mutex-protected strategy,
  with the ordering window and the time stamps that reach from the producers to the backend.

The **text path**: `FormattingContext` (the versioned per-thread context), `StreamBuffer` (the sixteen-slot buffer
against the text reported as written), `CharDecorator` and `EscapeDecorators` (replacement tables, the hexadecimal
loop, decoders).

**Smaller parts**: `LockOrder` (two-mutex locking) and `Loggers` (assigning and swapping loggers), `LockingPtr`
(reference-counted backend lock), `NamedScope`, `CounterAttribute`.

`dafny verify dfyconfig.toml` checks the project.

## Where the code differs from its documentation

The model follows the code.

* block_on_overflow.hpp:43-46 promises blocked threads are woken as soon as there is free space. The wake-up happens on
  the full-to-non-full step only; `NoneStrandedIff` gives the exact condition, `StrandedRun` the run that breaks it.
* async_frontend.hpp:388-391 promises `flush` feeds all records and returns. A flush a running feeder answers does so
  exactly when the feeder's last read of the flag took it in or nothing was left at the call, if no stop cuts the loop
  short (`DelegatedFlushDrainsIff`). The caller can be sure of it at the answer in the cases of `EveryAnswerDrainsIff`
  only; at the return, which a stop brings at once, if nothing was left at the call (`EveryReturnDrainsIff`); and, as
  long as nobody calls `stop`, in the cases of `EveryUnstoppedReturnDrainsIff`. A pending stop also ends a self-run
  loop early (`SelfFlushDrains`, `FlushSelf`).
* async_frontend.hpp:406-407 says the condition may have been signalled while the feeder was finishing. The waiting loop
  before it tests the flags only, and a leaving feeder takes the stop flag down before it notifies. So every flush that
  gets to wait can be left waiting with no feeder (`LeftBehindIff`), without any stop beside every feeder but a `run`
  that is not leaving (`LeftBehindUnstoppedIff`). Its request need not even be answered in the cases of `UnansweredIff`.
* async_frontend.hpp:349 allows `stop` whenever there is a dedicated thread. It waits for ever if that thread has ended
  and is not joined yet (`StopReturnsIff`). Every stop called before the join can come to that, since another one may
  raise the flag again (`StopStrandsIff`, `StrandedStopRun`).
* async_frontend.hpp:351-357 says records that come after a `stop` are put into the queue. A flush that meets a pending
  stop returns at lines 401-408 with its flag up, the feeder leaves, and later records wait outside the queue until
  somebody feeds (`PassesIff`, `HeldBackRun`).
* unbounded_ordering_queue.hpp:286 and bounded_ordering_queue.hpp:310 call the ordering stable. `std::priority_queue` is
  not, so nothing is said about records neither of which precedes the other.
* Ages are rounded down to milliseconds (libs/log/src/timestamp.cpp:163-167), so a consumer can sleep up to a
  millisecond past the time its record is ready (`SleepsExactlyIff`).
* Clearing the formatting stream after a record leaves its formatting flags in place (`FlagsCarryOver`); texts are
  independent of earlier records exactly for the formatters `IndependentIff` describes. Characters put into a detached
  buffer go to the string attached next unless the buffer is cleared before (`OwnSegmentsIff`, `PutWhileDetached`).

## Model

| member | source | states |
|---|---|---|
| `QueueTheorems.BoundedDisorder` | boost-log/boost/log/sinks/unbounded_ordering_queue.hpp:184-252 | In every run under a monotone clock: if `a` strictly precedes `b` and was accepted less than a window after `b`, a ready dequeue of `b` happens only after `a` has been popped |
| `QueueTheorems.SortedOutput` | boost-log/boost/log/sinks/unbounded_ordering_queue.hpp:184-252 | If no record arrives a window or more after one it precedes, the whole output of ready dequeues is sorted |
| `QueueTheorems.SortedDrain` | boost-log/boost/log/sinks/bounded_ordering_queue.hpp:227-243 | Popping an ordering queue with nobody enqueueing yields a sorted permutation of what left it, one record per dequeue until it is empty |
| `QueueTheorems.NoOversleep` | boost-log/boost/log/sinks/bounded_ordering_queue.hpp:245-280 | A consumer asleep without a notification over a non-empty queue has a deadline less than a millisecond after its current front becomes ready, whatever arrived since it lay down; so notifying only on empty is enough |
| `QueueTheorems.SleepsExactlyIff` | boost-log/boost/log/sinks/unbounded_ordering_queue.hpp:227-240 | "Never later than stamp plus window" holds in every run exactly when the clock ticks in milliseconds, the window is zero, or the queue has no room at all |
| `QueueTheorems.LateSleeper` | boost-log/boost/log/sinks/unbounded_ordering_queue.hpp:227-240 | For any finer clock and non-zero window, a run that ends with the consumer asleep past stamp plus window |
| `QueueTheorems.NoLostWakeup` | boost-log/boost/log/sinks/bounded_fifo_queue.hpp:136-168 | Asleep without a notification, no interruption is pending, and a FIFO queue is empty |
| `QueueInvariants.ReadyIffWindowPassed` | boost-log/boost/log/sinks/unbounded_ordering_queue.hpp:189-198 | The test on the age rounded to milliseconds passes exactly when the time stamp plus the window has passed |
| `QueueInvariants.DeadlineBounds` | boost-log/boost/log/sinks/unbounded_ordering_queue.hpp:227-240 | The unsigned subtraction does not underflow; the wait ends when the record is ready, less than a millisecond late and at most a window from now |
| `QueueInvariants.StepKeeps` | boost-log/boost/log/sinks/bounded_ordering_queue.hpp:168-289 | Every critical section of every strategy keeps capacity, clock, conservation, call, drop, wake-up, stay and order invariants together |
| `QueueInvariants.RunKeeps` | boost-log/boost/log/sinks/bounded_ordering_queue.hpp:168-289 | So does every run, of any number of producers with one consumer |
| `QueueProtocol.ListInvStep` | boost-log/boost/log/sinks/block_on_overflow.hpp:95-134 | A context is linked exactly while its call waits, and only once, whatever step comes |
| `SectionEnds.DequeueReadyEnds` | boost-log/boost/log/sinks/bounded_fifo_queue.hpp:136-168 | A waiting dequeue answers a pending interruption before it looks at the queue, takes its flag down and no record; otherwise it takes the front exactly if that has stayed for the window, and sleeps until then, less than a millisecond longer, or without limit over an empty queue |
| `SectionEnds.TryDequeuesEnd` | boost-log/boost/log/sinks/unbounded_ordering_queue.hpp:184-217 | `try_dequeue` takes any front, `try_dequeue_ready` exactly one that has stayed for the window; neither touches the interruption flag |
| `SectionEnds.EnqueueEnds` | boost-log/boost/log/sinks/block_on_overflow.hpp:95-110 | A section of `enqueue` gives up if an interruption unlinked the call; otherwise the record is queued exactly if there is room, and without room the call waits at the end of the line or loses its record, as the strategy says; a push to an empty queue wakes the consumer |
| `SectionEnds.TryEnqueueEnds` | boost-log/boost/log/sinks/bounded_ordering_queue.hpp:183-202 | `try_enqueue` never waits and fails exactly for want of the mutex or of room |
| `SectionEnds.InterruptEnds` | boost-log/boost/log/sinks/bounded_ordering_queue.hpp:282-289 | `interrupt_dequeue` raises the flag, turns away exactly the waiting calls, wakes the consumer and touches no record |
| `SectionEnds.SectionsEnabled` | boost-log/boost/log/sinks/bounded_ordering_queue.hpp:168-289 | In every reachable state and at any later time whoever wants to enqueue, dequeue or interrupt can carry out its section |
| `OverflowTheorems.CapacityAndConservation` | boost-log/boost/log/sinks/bounded_fifo_queue.hpp:76-110 | In every reachable state the size is within `MaxQueueSizeV`, pushed entries are those popped plus those queued (in order for FIFO), each accepted call has exactly one entry, and no ready-dequeued record stayed less than the window |
| `OverflowTheorems.EndsOnce` | boost-log/boost/log/sinks/bounded_fifo_queue.hpp:76-89 | A call that ended as accepted, dropped or refused stays that way in every continuation |
| `OverflowTheorems.LossNeedsInterrupt` | boost-log/boost/log/sinks/block_on_overflow.hpp:95-134 | Under `block_on_overflow` a dropped call implies an earlier `interrupt_dequeue` that found this very call linked |
| `OverflowTheorems.ContextsStep` | boost-log/boost/log/sinks/block_on_overflow.hpp:112-119 | Apart from interruptions a step changes the list only at its ends: the front is released exactly by a full-to-non-full dequeue, everybody else stays linked in order |
| `OverflowTheorems.GrantedInLinkOrder` | boost-log/boost/log/sinks/block_on_overflow.hpp:95-119 | A producer linked at position i is told to retry by exactly the (i+1)-th later full-to-non-full dequeue unless an interruption comes first; with fewer such dequeues it has moved up by their number |
| `OverflowTheorems.NoneStrandedIff` | boost-log/boost/log/sinks/block_on_overflow.hpp:40-47 | "Somebody blocked implies full, or a woken producer on its way" holds in every run exactly for capacities 0 and 1 |
| `OverflowTheorems.StrandedRun` | boost-log/boost/log/sinks/bounded_fifo_queue.hpp:119-133 | For every capacity of two or more, a run that leaves a producer blocked beside free space |
| `QueueObjects.ChooseFront` | boost-log/boost/log/sinks/bounded_ordering_queue.hpp:114-118 | The index found is one that no element strictly precedes |
| `QueueObjects.RecordQueue.PushEntry` | boost-log/boost/log/sinks/unbounded_ordering_queue.hpp:264-270 | A push appends and leaves the top alone or moves it to the new entry, which nothing then precedes |
| `QueueObjects.RecordQueue.PopEntry` | boost-log/boost/log/sinks/unbounded_ordering_queue.hpp:205-217 | A pop removes the old top, and the new top is an entry nothing precedes |
| `QueueObjects.RecordQueue.InterruptDequeue` | boost-log/boost/log/sinks/bounded_ordering_queue.hpp:282-289 | The flag goes up and every blocked producer gives up |
| `QueueObjects.RecordQueue.Enqueue` | boost-log/boost/log/sinks/bounded_fifo_queue.hpp:75-89 | From entry or wake-up to the next wait or return: discarded after an interruption, otherwise pushed, linked or discarded as capacity and strategy say; notifies exactly on a push to an empty queue |
| `QueueObjects.RecordQueue.TryEnqueue` | boost-log/boost/log/sinks/bounded_ordering_queue.hpp:183-202 | Succeeds exactly when the mutex was free and there was room, otherwise changes nothing |
| `QueueObjects.RecordQueue.TryDequeue` | boost-log/boost/log/sinks/bounded_fifo_queue.hpp:118-133 | Pops unless empty, and releases one blocked producer if the queue was full |
| `QueueObjects.RecordQueue.TryDequeueReady` | boost-log/boost/log/sinks/bounded_ordering_queue.hpp:204-225 | Pops only a front that has stayed for the window |
| `QueueObjects.RecordQueue.DequeueReady` | boost-log/boost/log/sinks/bounded_ordering_queue.hpp:245-280 | One turn of the loop: an interruption is answered first, whatever is queued, with no record taken; otherwise a front that has stayed for the window is popped, and the call sleeps without limit on an empty queue and until that time otherwise |
| `EventQueue.StepKeeps` | boost-log/boost/log/sinks/unbounded_fifo_queue.hpp:67-120 | Every operation of producers, interrupters and consumer, interleaved at single accesses, keeps FIFO conservation and the signal invariants |
| `EventQueue.NoLostWakeup` | boost-log/boost/log/sinks/unbounded_fifo_queue.hpp:94-120 | Waiting unsignalled over a non-empty queue (or a raised flag) implies a producer (an interrupter) that still has to signal; pops come in push order |
| `EventQueueObject.UnboundedFifoQueue.Enqueue` | boost-log/boost/log/sinks/unbounded_fifo_queue.hpp:67-72 | Pushes, then signals, as two steps of the fine-grained system |
| `EventQueueObject.UnboundedFifoQueue.InterruptDequeue` | boost-log/boost/log/sinks/unbounded_fifo_queue.hpp:115-120 | Raises the flag, then signals |
| `EventQueueObject.UnboundedFifoQueue.DequeueReady` | boost-log/boost/log/sinks/unbounded_fifo_queue.hpp:94-113 | The waiting loop with nobody in between ends: on entry a queued record comes first and leaves flag and signal alone; after a wait an interruption comes first and leaves the records alone; a stale signal costs one turn, and every state on the way is one the fine-grained system reaches |
| `QueueInterface.MutexQueueActs` | boost-log/boost/log/sinks/bounded_ordering_queue.hpp:168-289 | Every critical section of the mutex-protected strategies is one append, allowed removal, raise or answer of the interruption, or nothing; and a dequeue returns without a record only from an empty queue, from an ordering queue whose front is still in its window (`try_dequeue_ready`), or to answer a pending interruption (`dequeue_ready`) |
| `QueueInterface.EventQueueActs` | boost-log/boost/log/sinks/unbounded_fifo_queue.hpp:67-120 | So is every operation of the event-based one; its `try_dequeue` fails only on an empty queue and its `dequeue_ready` only to answer an interruption |
| `FrontendInvariants.StepKeeps` | boost-log/boost/log/sinks/async_frontend.hpp:115-456 | Every step of every thread keeps: one feeder, the frontend mutex, conservation, flags answered by interruptions, flush marks, drain floor and flush budget |
| `FrontendInvariants.RunKeeps` | boost-log/boost/log/sinks/async_frontend.hpp:115-456 | So does every run of any number of threads |
| `FrontendTheorems.OneFeeder` | boost-log/boost/log/sinks/async_frontend.hpp:115-145 | At most one thread feeds, whatever `run`, `feed_records`, `flush` and `stop` calls overlap |
| `FrontendTheorems.EndToEndFifo` | boost-log/boost/log/sinks/async_frontend.hpp:323-342 | Through FIFO strategies, offered records, record in hand and queue together are the accepted sequence, in every run |
| `FrontendTheorems.EndToEndOnce` | boost-log/boost/log/sinks/async_frontend.hpp:434-456 | Through any strategy every accepted record is offered, in hand or queued exactly once |
| `FrontendTheorems.RequestsInterrupt` | boost-log/boost/log/sinks/async_frontend.hpp:358-403 | With a stop or flush requested, a feeder in its blocking dequeue has an interruption pending and can go on, or some thread stands between its raise of a flag and its interruption of the queue and can take that step |
| `FrontendTheorems.StepsAreQueueActions` | boost-log/boost/log/sinks/async_frontend.hpp:286-456 | Whatever a frontend step does to the queue is an action each strategy was shown to provide |
| `FrontendTheorems.RequestsEnd` | boost-log/boost/log/sinks/async_frontend.hpp:133-176 | A stop request ends exactly when the feeder leaves, a flush request exactly when it has been answered |
| `FrontendTheorems.AnswersFlushBackend` | boost-log/boost/log/sinks/async_frontend.hpp:434-456 | In every run the backend is flushed once for each answer to a flush request and never otherwise, right before it: nothing is offered in between |
| `FrontendTheorems.StopEndsFeeder` | boost-log/boost/log/sinks/async_frontend.hpp:323-372 | The feeder leaves within nine of its own steps after a stop request, in every interleaving |
| `FrontendTheorems.SelfFlushDrains` | boost-log/boost/log/sinks/async_frontend.hpp:395-418 | A flush that feeds by itself, because it finds no feeder on entry or after it has waited for one, flushes the backend only after every record accepted before it began to feed, and so before its call, was offered (unless a stop cuts the loop short); it never skips that, and feeds at most the queue plus the producers already past the flag check |
| `FrontendTheorems.SelfFlushNeverBlocks` | boost-log/boost/log/sinks/async_frontend.hpp:434-456 | Such a flush can always take its next step, or waits for the mutex of a thread that can take the step that frees it |
| `FrontendTheorems.SelfFlushTerminates` | boost-log/boost/log/sinks/async_frontend.hpp:395-418 | It leaves within that bound, in every interleaving |
| `DelegatedFlush.NoticedFlushDrains` | boost-log/boost/log/sinks/async_frontend.hpp:436-455 | A flush whose request the feeder's last read of the flag took in is answered only after everything accepted before the call was offered, if no stop cuts the loop short |
| `DelegatedFlush.DelegatedFlushDrainsIff` | boost-log/boost/log/sinks/async_frontend.hpp:399-455 | For every flush that a running feeder answers without a stop cutting its loop short, from every reachable call on and in every interleaving: everything accepted before the call has been offered exactly when the feeder's last read of the flag took the request in, or nothing was queued or in hand at the call |
| `DelegatedFlush.UnnoticedRun` | boost-log/boost/log/sinks/async_frontend.hpp:440-451 | From the start: a request raised between the feeder's failed dequeue and its test of the flag is about to be answered over a record accepted before the call |
| `DelegatedFlush.EveryUncutAnswerDrainsIff` | boost-log/boost/log/sinks/async_frontend.hpp:436-455 | Seen from the call: every answer that no stop cuts short comes after that drain, exactly unless something is left to offer and the feeder's loop has ended without a stop, or is about to try a dequeue that may fail over waiting records because the flag was down when read |
| `EveryAnswer.EveryAnswerDrainsIff` | boost-log/boost/log/sinks/async_frontend.hpp:358-455 | Seen from the call: every answer the flush can get, whatever stops are called meanwhile, comes after that drain exactly when nothing is queued at the call; or one record is, the feeder is bound to take a record next, and no producer past the flag check has one that may leave an ordering queue before it; or a stop is pending and the feeder past its loop, so that there is no answer to wait for |
| `EveryAnswer.CutRun` | boost-log/boost/log/sinks/async_frontend.hpp:358-455 | From every other call, a run in which the flush is answered with records accepted before it still queued |
| `FlushReturns.EveryReturnDrainsIff` | boost-log/boost/log/sinks/async_frontend.hpp:395-418 | A flush beside a feeder can be sure that everything accepted before it was offered when it returns exactly if nothing was queued or in hand at its call, because a stop makes it return at once |
| `FlushReturns.EveryUnstoppedReturnDrainsIff` | boost-log/boost/log/sinks/async_frontend.hpp:395-455 | As long as nobody calls `stop`, exactly if nothing was left, or no stop was pending at the call and the feeder neither past its loop nor about to fail a dequeue with the flag read as down |
| `LeftBehind.LeftBehindIff` | boost-log/boost/log/sinks/async_frontend.hpp:328-404 | A flush beside a feeder can come to wait with no feeder left exactly when no stop is pending at its call, that is, whenever it waits at all: a stop may end the feeder, and the flag may be up again, for a later flush, when the thread looks at it |
| `LeftBehind.LeftBehindUnstoppedIff` | boost-log/boost/log/sinks/async_frontend.hpp:167-404 | As long as nobody calls `stop`, exactly when no stop is pending and the feeder is not a `run`, or is one that is leaving already |
| `LeftBehind.UnansweredIff` | boost-log/boost/log/sinks/async_frontend.hpp:328-404 | Its request can be left behind without ever having been answered exactly when no stop is pending and the feeder is past its last test of the flag: leaving, or about to test for a stop |
| `LeftBehind.UnansweredUnstoppedIff` | boost-log/boost/log/sinks/async_frontend.hpp:395-404 | As long as nobody calls `stop`, exactly when no stop is pending and the feeder is leaving already |
| `LeftBehind.FlushLeftBehindRun` | boost-log/boost/log/sinks/async_frontend.hpp:399-404 | A run from the start in which this happens |
| `LeftBehind.LeftBehindStays` | boost-log/boost/log/sinks/async_frontend.hpp:286-296 | From there no step but a new feeder, another flush or a stop moves a waiting flush or a held-back producer |
| `WaitingStops.StopReturnsIff` | boost-log/boost/log/sinks/async_frontend.hpp:358-372 | Unless somebody begins to feed after its call, a stop waits for ever exactly when at its call there is a dedicated thread not joined yet but no feeder and nobody on the way to feed; otherwise there is a run in which its wait ends |
| `WaitingStops.StopStrandsIff` | boost-log/boost/log/sinks/async_frontend.hpp:358-372 | A stop can come to wait for ever, with nobody feeding or on the way to, exactly when there is a dedicated thread not joined yet at its call |
| `WaitingStops.StrandedStopRun` | boost-log/boost/log/sinks/async_frontend.hpp:358-372 | Two overlapping stops of a sink with its dedicated thread lead there, with both of them waiting |
| `WaitingStops.StopReturnsJoined` | boost-log/boost/log/sinks/async_frontend.hpp:358-372 | In every run of a sink with its dedicated thread: when a stop returns, that thread has left `run` and is joined |
| `HeldBack.PassesIff` | boost-log/boost/log/sinks/async_frontend.hpp:286-296 | A producer that waits for the flush flag to go down never passes, unless somebody begins to feed, exactly when the flag is up, no feeder will take it down, nobody is about to become one, and there is no stop, nor a thread to stop, that could make a waiting flush feed by itself |
| `HeldBack.HeldBackRun` | boost-log/boost/log/sinks/async_frontend.hpp:351-408 | From the start: a flush meets a pending stop and returns with its flag up, the feeder leaves, and a record that came meanwhile is held back for good |
| `SinkObject.AsynchronousSink.FeedLoop` | boost-log/boost/log/sinks/async_frontend.hpp:436-449 | The loop feeds until nothing is queued or the front still has to wait, in an allowed order; without a flush request nothing that has not been queued for the window, and nothing at all after a stop |
| `SinkObject.AsynchronousSink.DoFeedRecords` | boost-log/boost/log/sinks/async_frontend.hpp:434-456 | A requested flush empties the queue, then flushes the backend exactly once and takes the flag down; without a request the backend is not flushed and nothing is fed that has not been queued for the window |
| `SinkObject.AsynchronousSink.FeedRecords` | boost-log/boost/log/sinks/async_frontend.hpp:379-386 | Fails and changes nothing if somebody feeds already, otherwise feeds all that is ready, and only that unless a flush is requested, and takes a pending stop down |
| `SinkObject.AsynchronousSink.FlushSelf` | boost-log/boost/log/sinks/async_frontend.hpp:412-417 | Without a pending stop the whole queue comes out, sorted or in FIFO order, and the backend is flushed after the last record |
| `Pipeline.Served` | boost-log/boost/log/sinks/async_frontend.hpp:434-449 | Whatever a critical section of a mutex-protected strategy gives the feeder, or denies it, is what the frontend was proved for: the strategy meets every assumption of the frontend's step system |
| `Pipeline.StepKeeps` | boost-log/boost/log/sinks/async_frontend.hpp:286-456 | Frontend and strategy side by side: after every step the records accepted, queued, in hand and offered are on both sides the same ones in the same places, every producer past the flag check has one open call, and only a blocking dequeue sleeps |
| `PipelineTheorems.FrontRuns` | boost-log/boost/log/sinks/async_frontend.hpp:115-456 | Every run of the sink over a mutex-protected strategy is a run of the frontend's step system, so all that is proved of those holds of it |
| `PipelineTheorems.BackRuns` | boost-log/boost/log/sinks/bounded_ordering_queue.hpp:168-289 | And one of the strategy's |
| `PipelineTheorems.FeederServed` | boost-log/boost/log/sinks/async_frontend.hpp:434-449 | A feeder that wants to dequeue always can; only the blocking dequeue of `run` may go to sleep, and not over an interruption |
| `PipelineTheorems.ProducerServed` | boost-log/boost/log/sinks/async_frontend.hpp:286-304 | A producer past the flag check can always go on, unless its call waits in line |
| `PipelineTheorems.FedAfterWindow` | boost-log/boost/log/sinks/async_frontend.hpp:440-443 | A record fed from a dequeue for which no flush had been seen was queued for the ordering window |
| `PipelineTheorems.SinkBoundedDisorder` | boost-log/boost/log/sinks/unbounded_ordering_queue.hpp:184-252 | From the producers to the backend: a record from a ready dequeue is offered only after every record that strictly precedes it and was accepted less than a window later |
| `PipelineTheorems.SinkKeepsWindow` | boost-log/boost/log/sinks/unbounded_ordering_queue.hpp:184-252 | As long as nobody calls `flush`, whatever is stopped and started, no record is offered before it has been queued for the window |
| `PipelineTheorems.SinkKeepsOrder` | boost-log/boost/log/sinks/unbounded_ordering_queue.hpp:184-252 | Then all records are offered in order if none was accepted a window or more after one it precedes |
| `FormattingContext.OutdatedPassesIff` | boost-log/boost/log/sinks/basic_sink_frontend.hpp:441-442 | The version check takes an outdated context for a current one exactly after a positive multiple of 2^32 changes |
| `FormattingContext.FormattingFrontend.Change` | boost-log/boost/log/sinks/basic_sink_frontend.hpp:373-421 | Every change of formatter or locale is followed by a version increment, and keeps all cached contexts and delivered texts accounted for |
| `FormattingContext.FormattingFrontend.Format` | boost-log/boost/log/sinks/basic_sink_frontend.hpp:454-478 | However the formatter ends, the context is clean again; without a formatter the text is the record's message, and a formatter yields one exactly if it did not throw: what it wrote for this record under the copied locale and the flags of the stream |
| `FormattingContext.FormattingFrontend.FindContext` | boost-log/boost/log/sinks/basic_sink_frontend.hpp:441-449 | The thread's own context exactly if it passes the version check, a fresh one otherwise |
| `FormattingContext.FormattingFrontend.FeedRecord` | boost-log/boost/log/sinks/basic_sink_frontend.hpp:434-485 | With fewer than 2^32 changes since the context was built, the text is the message if no formatter is set, and otherwise what the current formatter writes under the current locale with the flags that the records formatted in the same context left, the initial ones in a new context, whatever failed before; and what it writes for the record alone if it is independent of them |
| `FormattingContext.FormattingFrontend.DeliveredIsCurrent` | boost-log/boost/log/sinks/basic_sink_frontend.hpp:434-485 | In every reachable state, with any interleaving of changes: each delivered text is the message, or what the formatter writes under the locale, of the setup current at its version check, with the flags left by those formatted in the same context, if fewer than 2^32 changes came in between; and for the record alone if that one formatter is independent of earlier records |
| `FormattingContext.IndependentIff` | boost-log/boost/log/sinks/basic_sink_frontend.hpp:454-467 | A formatter writes every record after any others as on a fresh stream exactly when there is a set of stream flags, with the initial ones, that it never leaves and under all of which it writes the same |
| `FormattingContext.EarlierRecordsShow` | boost-log/boost/log/sinks/basic_sink_frontend.hpp:434-485 | For every setup and all records there is a use of the frontend whose last text is what is written after the earlier records, so every dependence on them reaches the backend |
| `FormattingContext.FlagsCarryOver` | boost-log/boost/log/sinks/basic_sink_frontend.hpp:454-456 | A formatter that leaves a formatting flag set makes the same record come out differently the second time: clearing the stream resets its error state only |
| `Loggers.LoggersFinish` | boost-log/boost/log/sources/basic_logger.hpp:469-497 | Threads that assign and swap any loggers, but none with itself: no schedule is longer than the locks to take and give back, a logger being changed is shared with nobody, and a schedule that cannot go on has finished all threads |
| `Loggers.LoggersExclude` | boost-log/boost/log/sources/basic_logger.hpp:469-497 | In every run of any threads: a thread that replaces the content of its target is the only one to hold it, a thread that swaps is the only one to hold whatever it holds, and one that copies holds the source |
| `Loggers.LoggersAreLocked` | boost-log/boost/log/sources/basic_logger.hpp:469-497 | Every assignment that is done has held its source while it copied and its target while it replaced the content, and every swap that is done has held both loggers at once |
| `Loggers.WaitsIff` | boost-log/boost/log/sources/basic_logger.hpp:483-497 | A logger can be copied exactly unless somebody is changing it, so copies do not keep each other waiting, and replaced exactly unless somebody holds it |
| `LockOrder.NoDeadlock` | boost-log/boost/log/detail/locks.hpp:137-158 | For any number of threads with any operations on any distinct loggers, every reachable state with an unfinished thread has one that can step |
| `LockOrder.OneMutexAStep` | boost-log/boost/log/detail/locks.hpp:137-158 | Every step takes the mutex wanted or gives one back, and no other; the two of a swap are taken one by one, and the second given back first |
| `LockingPtr.Pointers.Construct` | boost-log/boost/log/detail/locking_ptr.hpp:71-77 | The pointer refers to the lock; counters and mutexes stay exact |
| `LockingPtr.Pointers.TryConstruct` | boost-log/boost/log/detail/locking_ptr.hpp:79-91 | Null exactly when this thread has no pointer to the lock and the mutex is taken; counters and mutexes stay exact |
| `LockingPtr.Pointers.Copy` | boost-log/boost/log/detail/locking_ptr.hpp:93-97 | The copy refers to the same lock, or is null with it; counters and mutexes stay exact |
| `LockingPtr.Pointers.Destroy` | boost-log/boost/log/detail/locking_ptr.hpp:99-103 | The last pointer unlocks; counters and mutexes stay exact |
| `LockingPtr.Pointers.Swap` | boost-log/boost/log/detail/locking_ptr.hpp:126-132 | The two pointers change places; counters and mutexes stay exact |
| `LockingPtr.Pointers.Assign` | boost-log/boost/log/detail/locking_ptr.hpp:106-110 | Copy, swap and destruction leave exactly the assigned pointer changed, also when a pointer is assigned to itself or its lock's last pointer goes |
| `CharDecorator.FmtCharDecorator.constructor` | boost-log/boost/log/formatters/char_decorator.hpp:109-127 | Decoration i pairs the i-th pattern with the i-th replacement |
| `CharDecorator.FmtCharDecorator.Decorate` | boost-log/boost/log/formatters/char_decorator.hpp:157-162 | From the formatted text to the result there is one stage for every decoration, in order, and each stage is the one before it with the replacement in the place of every occurrence of the pattern |
| `CharDecorator.ReplaceAllIff` | boost-log/boost/log/formatters/char_decorator.hpp:157-162 | For patterns of any length: a text is the outcome exactly if it consists of the pieces between the occurrences, each the first one behind the one before, joined by the replacement; an empty pattern changes nothing |
| `CharDecorator.SequentialIsOnePass` | boost-log/boost/log/formatters/char_decorator.hpp:157-162 | Sequential replacement of single characters equals one simultaneous substitution when no later pattern occurs in an earlier replacement |
| `CharDecorator.SequentialIsOnePassIff` | boost-log/boost/log/formatters/char_decorator.hpp:157-162 | For distinct characters with growing replacements it does so on every text exactly when no later pattern occurs in an earlier replacement |
| `EscapeDecorators.TablesAreOnePass` | boost-log/boost/log/formatters/c_decorator.hpp:48-63 | The C, XML and CSV tables, in the order listed, are one-pass substitutions of every text |
| `EscapeDecorators.TablesChangeIff` | boost-log/boost/log/formatters/c_decorator.hpp:48-63 | They leave a text alone exactly if it has no backslash, control character from bell to carriage return, quotation or question mark; no ampersand, angle bracket or apostrophe; no quotation mark |
| `EscapeDecorators.EscapedIsClean` | boost-log/boost/log/formatters/c_decorator.hpp:48-63 | Their output has none of those control characters, every quotation and question mark behind a backslash, and in XML no angle bracket or apostrophe |
| `EscapeDecorators.HexEscapeAt` | boost-log/boost/log/formatters/c_decorator.hpp:64-69 | An escape is `\x` and the upper-case hexadecimal digits of the value, the highest first |
| `EscapeDecorators.EscapeFitsBuffer` | boost-log/boost/log/formatters/c_decorator.hpp:237-237 | The buffer has room for the escape and its terminator, exactly, for every character width |
| `EscapeDecorators.PrintEscaped` | boost-log/boost/log/formatters/c_decorator.hpp:64-69 | Writes `\x`, the fixed number of upper-case hexadecimal digits of the value, and the terminator |
| `EscapeDecorators.EscapeUnprintable` | boost-log/boost/log/formatters/c_decorator.hpp:232-244 | The loop ends although its cursor jumps back, and its result is the one-pass map of every character outside 0x20..0x7e to its escape |
| `EscapeDecorators.CAsciiRoundTrip` | boost-log/boost/log/formatters/c_decorator.hpp:219-244 | Decoding simple and fixed-width hexadecimal escapes gives back every text that `c_ascii_dec` escaped |
| `EscapeDecorators.HexPassIsPrintable` | boost-log/boost/log/formatters/c_decorator.hpp:232-244 | The output of `c_ascii_dec` is within 0x20..0x7e throughout, and differs from the text exactly if that is not |
| `EscapeDecorators.DecoratorsRoundTrip` | boost-log/boost/log/formatters/char_decorator.hpp:157-162 | Decoding C escapes, XML predefined entities and doubled quotes gives back every text that the C, XML and CSV decorators, run pattern by pattern, have escaped |
| `StreamBuffer.OStringStreamBuf.Synchronize` | boost-log/boost/log/detail/attachable_sstream_buf.hpp:121-132 | Moves the buffered characters to the string, or changes nothing if that throws |
| `StreamBuffer.OStringStreamBuf.Overflow` | boost-log/boost/log/detail/attachable_sstream_buf.hpp:134-145 | Synchronizes, then appends the character that did not fit |
| `StreamBuffer.OStringStreamBuf.PutChar` | boost-log/boost/log/detail/attachable_sstream_buf.hpp:134-145 | Buffers while a slot is free, overflows otherwise |
| `StreamBuffer.OStringStreamBuf.PutString` | boost-log/boost/log/detail/attachable_sstream_buf.hpp:147-164 | Synchronizes, appends as much as the string can hold, and returns how much that was |
| `StreamBuffer.OStringStreamBuf.Detach` | boost-log/boost/log/detail/attachable_sstream_buf.hpp:103-110 | The buffered characters go to the attached string first |
| `StreamBuffer.OStringStreamBuf.Attach` | boost-log/boost/log/detail/attachable_sstream_buf.hpp:113-117 | The old string gets its own segment, the new one starts untouched |
| `StreamBuffer.AllReportedIff` | boost-log/boost/log/detail/attachable_sstream_buf.hpp:134-164 | A call reports everything it was asked to write exactly when a slot is free or it fits below `max_size` |
| `StreamBuffer.CallsTakeEffect` | boost-log/boost/log/detail/attachable_sstream_buf.hpp:93-145 | A flush, detach or attach leaves everything in the string attached so far and nothing in the buffer, or, if that does not fit, has no effect at all; a detach leaves no string attached, an attach the new one; a character with a free slot goes no further |
| `StreamBuffer.SessionAccounts` | boost-log/boost/log/detail/attachable_sstream_buf.hpp:83-164 | The same over any calls, with detached puts and clears among them |
| `StreamBuffer.SessionAppends` | boost-log/boost/log/detail/attachable_sstream_buf.hpp:83-164 | Over any puts, writes, flushes, attaches and detaches, failing or not, each string with what is buffered for it is its initial content and then everything reported as written while it was attached |
| `StreamBuffer.FlushDelivers` | boost-log/boost/log/detail/attachable_sstream_buf.hpp:121-132 | After any calls and a flush that fits, the string alone holds its initial content and then everything reported as written while it was attached; a flush that does not fit changes nothing |
| `StreamBuffer.OwnSegmentsIff` | boost-log/boost/log/detail/attachable_sstream_buf.hpp:93-117 | Over any calls, every string receives exactly its own segments exactly when nothing is pending whenever one is attached to a detached stream |
| `NamedScope.FormatForward` | boost-log/boost/log/formatters/named_scope.hpp:164-179 | All names joined in order if `depth` allows; the last `depth` of them after `...` if it does not, and nothing for depth 0 |
| `NamedScope.FormatReverse` | boost-log/boost/log/formatters/named_scope.hpp:181-196 | All names joined innermost first if `depth` allows; the innermost `depth` of them, then `...`, if it does not, and nothing for depth 0 |
| `CounterAttribute.Counter.constructor` | boost-log/boost/log/attributes/counter.hpp:50-97 | The implementation chosen for the step starts one step before the initial value, modulo the width |
| `CounterAttribute.Counter.NextGeneric` | boost-log/boost/log/attributes/counter.hpp:129-135 | The same by widening multiplication |
| `CounterAttribute.Counter.NextSingleThreaded` | boost-log/boost/log/attributes/counter.hpp:204-209 | The same by repeated truncated addition |
| `CounterAttribute.Counter.GetValue` | boost-log/boost/log/attributes/counter.hpp:82-97 | So all implementations agree, for every n |

## Left out

- OverflowTheorems.GrantedInLinkOrder: says when a producer is told to retry, not that it finds room: another producer may take the place before it runs again, and then it links itself at the end.
- QueueTheorems.NoOversleep: the timed wait is taken to start at the moment the time stamp was read; the time between the two calls adds to the real sleep.
- QueueTheorems.SortedOutput: nothing about the order of records of which neither precedes the other.
- FrontendTheorems.SelfFlushTerminates: counts steps of the flushing thread, so it takes for granted that the scheduler lets it run and that calls of the backend return; the same goes for `StopEndsFeeder`.
- DelegatedFlush.NoticedFlushDrains: claims nothing about when a waiting flush returns, since one that is left behind need not.
- FrontendTheorems.EndToEndFifo: an enqueue is one step that accepts or rejects the record in the frontend's step system; `Pipeline` has the sections it consists of.
- Pipeline.StepKeeps: the mutex-protected strategies only; for `unbounded_fifo_queue`, which has no window and never blocks a producer, `EventQueueActs` is the link to the frontend.
- EventQueue.NoLostWakeup: the thread-safe queue is an atomic FIFO and the event a sticky bit a wait consumes; their implementations are not part of this model.
- EventQueueObject.UnboundedFifoQueue.DequeueReady: does not model accesses of other threads within one call; `EventQueue` does.
- SinkObject.AsynchronousSink.DoFeedRecords: does not model steps of other threads inside the loop; `FrontendTheorems` does.
- FormattingContext.FormattingFrontend.Format: a formatter is a function of locale, flags and record; width, fill and precision of the stream stand with the flags, the text is written whole, and an error is raised at its end.
- EscapeDecorators.EscapeUnprintable: the loop only; the stream buffer is still redirected when the result is written at c_decorator.hpp:247, and what reaches the outer stream is not modelled.
- EscapeDecorators.XmlRoundTrip: the table leaves the double quote alone, so the decoded text is the original but the escaped one need not fit into a double-quoted attribute.
- LockingPtr.Pointers.Construct: one thread uses the pointers (the counter is read before the mutex is taken, locking_ptr.hpp:74), and there are fewer than 2^32 of them.
- Loggers.LoggersFinish: the swap of a logger with itself, which would lock one mutex twice, is excluded; loggers are their mutexes, held and released by steps on values rather than by guard objects, and the attributes they protect are not modelled.
- CounterAttribute.Counter.GetValue: values stand for their residues; signed overflow of `initial - 1`, `initial + 1` and of the single-threaded addition is taken to wrap around, the atomic counter is as wide as `long`, and calls are atomic.
- Exceptions that escape the feeder and thread interruption: a record counts as offered whether the backend returns or its exception is swallowed.
- The clock is an input that never goes back; time stamps are unbounded.
- `try_feed_record`, the single-threaded build of the sinks, and converting stream buffers: they repeat what is modelled here.
- Core, attribute sets and views, text file, syslog and event log backends: declared in headers, implemented elsewhere.
- Filters, formatter chaining, keywords and type dispatch: compile-time structure, or true by reading one line.
- Platform mutexes, condition variables, thread-specific storage and process ids: foreign calls.
