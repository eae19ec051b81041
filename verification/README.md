# stnl: a verified model of the reactor's core

stnl is a reactor in the style of muduo: one event loop per thread, timers multiplexed on one timerfd, an
asynchronous log writer, buffered TCP connections and a reconnecting client.  This project models its stateful
components and proves what their C++ assertions and their callers rely on, over every run.

Each component comes in two forms.

* A *value model* (`TimerAgenda`, `LogStream`, `LoopState`, `ByteQueues`, `EpollState`, `TcpState`, `ConnectorState`): a
  datatype for the whole state, one function per operation of the source with the same branches, constants and
  assertions (an assertion that does not hold shows in the result), and a `Step` for one atomic event, so that a run is
  any sequence of events.  Beside the invariants of all runs stand lemmas that say outright, in values and constants,
  what each step does to a state in working order (`...Does`), and accounts that are kept from the events alone.  The
  calls of other threads, of user callbacks and the answers of the kernel are events.
  The main results are lemmas about these runs.
* A *class* in the source's own form (`TimerQueue`, `AsyncLogging` and `FixedBuffer`, `EventLoop`, `Epoll` and
  `Channel`, `TcpConnection`, `NetBuffer`, `Connector`): fields, in-place updates and loops.  Every method is proved to
  take the object exactly to the state that the value model gives, so the results about runs apply to it, and every
  assertion of the source is proved where it stands.  User callbacks and other threads are scripts of events at the
  point where the source calls or admits them.

The kernel, the clock and the network appear only as events with stated limits: time does not go backward, a write
accepts a prefix of what it is given and nothing after SHUT_WR, epoll reports only descriptors in its interest list,
a semaphore eventfd gives one token per read, and no allocation comes near a quarter of the address space.

## What the components promise

**Timers.** Whatever is inserted and cancelled, also inside callbacks, a queued timer never waits for a timerfd that
does not fire: it has fired unread or is armed no later than the earliest expiration, or 1000 ns after it was last
armed if that is later. One expiry runs exactly the timers that were due, in order of expiration and then of
insertion. A cancelled queued timer never runs again; one cancelled during its own batch still runs in that batch and
never later. A timer is identified by counter value *and* address because the destructor decrements the counter
(stnl/Timer.h:79). Even the pair repeats: the next timer at the address of a cancelled one gets the same id if that
one was the last in the count. A stale TimerId whose address is in use again is not harmless either: cancelled from a
callback, it stops the other timer.

**Asynchronous log.** In every interleaving of appends, exchanges, writes and recycling, accepted bytes are conserved
in lock order; only a pass over more than 25 buffers loses any, and it keeps exactly the first two. The loop's
assertions about its spare buffers hold because a null `nextBuffer_` implies a queued full one. `stop` does not drain:
what the front end accepts after the last exchange is never written, and that is all that is missing besides dropped
buffers.

**Event loop.**  A task queued while the loop is in epoll_wait cannot be missed, and a quit cannot leave it blocked.
Two orders of calls are exceptions, and both are characterised exactly, for every call of `loop()`.  A task that the
loop thread queues outside `loop()` gets no wakeup: the first epoll_wait then waits for another event or the 5 s
timeout iff tasks are pending at the call with no token and no writer on its way, and no other thread queues or quits
after it; no later epoll_wait of that call can strand anything.  A quit is undone iff `loop()` is called after it.

**TCP connection.**  Bytes accepted by the kernel followed by the output buffer are what was sent.  The channel's write
interest follows the output buffer, so the branch of `sendInLoop` that writes at once, with its unsigned `written`, is
never taken.  With callers in the loop thread the half-close is exact.  From other threads it is not:
`shutdown()` can issue SHUT_WR twice, and a queued message can be sent after it.  `handleClose` runs once unless one
dispatch reads the end of the stream because of urgent data or a half-close and reports a hang-up without readable
data, or the owner destroys the connection while it is disconnecting: `connectionDestory` then leaves the state as it
is, and a queued `forceCloseInLoop` puts the removed channel back into epoll.

**NetBuffer.**  A FIFO queue of bytes in one array.  The unsigned guard of `append` wraps around, and the assertion of
`memoryMoving` then fails, exactly when the message does not fit and the free bytes on both sides are fewer than 8;
that needs a `prepend` first.  Over any run of operations, prepends included, no byte is lost or invented.

**Epoll.**  Channel states, `channelMap_` and the kernel's interest list agree after every operation unless a channel
that is not registered is enabled or removed while another channel holds its descriptor; enabling asserts,
removing silently erases the other channel's entry.  Destroying a channel is harmless iff it has been removed; another
one may be constructed on its descriptor before or after that.

**Connector.**  Each socket has one owner, the channel is reset before anything can need it again, and the assertions
hold for a client that starts only while nothing is under way, stops at any time and restarts when it loses its
connection; a start is safe, over all continuations, exactly if nothing is under way and no other start is queued,
and on the loop thread, where it runs at once, the old channel has been reset as well.  That is less than it seems: the
state stays CONNECTED after a connection is refused because of a stop, or lost without a restart, and every later
`TcpClient::connect` of that client then fails its assertion.  This rests on the order of the loop's phases: a function
queued in the handlers runs in the batch of the same iteration and queued functions run in order, which `ConnectorLoop`
derives by running the connector side by side with `LoopState`; and a connection cannot be dispatched in the iteration
that made it, because the active channels were collected before.  The one remaining danger is time: something fails
iff a retry timer expires while the old channel has not been reset and the attempt proceeds.  That is impossible if
the timer does not expire before the iteration that armed it is over and, if it was armed by a queued function, the
next one.

## Model

| member | source | states |
|---|---|---|
| TimerService.NeverStranded | stnl/Timer.cpp:130-217 | in every reachable state with a queued timer the timerfd has fired unread or is armed no later than max(earliest expiration, last arming + 1000 ns) |
| TimerService.DueMeansReadable | stnl/Timer.cpp:156-201 | once that moment has passed the timerfd is readable, so the next expiry collects the timer |
| TimerService.ExpireServed | stnl/Timer.cpp:130-180 | a whole expiry with arbitrary inserts and cancels in its callbacks keeps that promise, including when rearming is skipped |
| TimerService.StepServed | stnl/Timer.cpp:191-217 | so does every other insert, cancel and passage of time |
| TimerAgenda.IntervalFromNow | stnl/TimeUtil.cpp:30-42 | the armed delay is positive and ends no later than the expiration or 1000 ns from now |
| TimerQueueOrder.SplitIsPrefix | stnl/Timer.cpp:105-116 | on an ordered queue the timers due by a time are a prefix ending at its upper bound |
| TimerQueueOrder.SplitSorted | stnl/Timer.cpp:105-116 | both parts of the split of an ordered queue are ordered |
| TimerQueueOrder.SplitConserves | stnl/Timer.cpp:105-128 | splitting loses and invents no timer, and the time separates the parts |
| TimerQueueOrder.PlacedSorted | stnl/Timer.cpp:219-241 | an insertion keeps the order, equal expirations in insertion order |
| TimerQueueOrder.WithoutCounts | stnl/Timer.cpp:78-100 | a cancel removes every timer of that id and nothing else |
| TimerInvariant.StepOrdered | stnl/Timer.cpp:78-241 | every event keeps the queue ordered and all live timers distinct in address |
| TimerPace.ExecutionsArePaced | stnl/Timer.cpp:42-50 | over any run, two executions of a periodic timer are at least its interval apart, a one-shot timer executes once and nothing executes early |
| TimerPace.RateBound | stnl/Timer.cpp:42-143 | the n-th execution is no earlier than n - 1 intervals after the first expiration |
| TimerPace.RunsByTime | stnl/EventLoop.cpp:202-206 | a runEvery timer has executed at most (t - start) / interval times by time t |
| TimerDue.ExpirationsAreExact | stnl/Timer.cpp:42-50 | over any run a timer that has not been executed is due at its first expiration, and otherwise at exactly one interval after its last execution |
| TimerDue.CreateDoes | stnl/Timer.cpp:34-41 | a new timer has the given time and interval and is not queued yet |
| TimerDue.EnqueueDoes | stnl/Timer.cpp:203-241 | it is queued behind those that are not later and before those that are, and iff it is the earliest the timerfd is armed for it, or for 1000 ns from now if it is past due |
| TimerDue.CancelDoes | stnl/Timer.cpp:78-100 | a queued timer is taken away, any other address is remembered iff callbacks are running |
| TimerDue.ExpireArms | stnl/Timer.cpp:145-153 | an expiry ends with the timerfd armed for the timer that is then the earliest |
| TimerCancel.BatchRunsExactlyTheDue | stnl/Timer.cpp:156-180 | one expiry runs exactly the timers due when it began, each once, in order, whatever its callbacks do |
| TimerCancel.CancelledNeverRuns | stnl/Timer.cpp:78-100 | a queued timer that is cancelled never runs again in any continuation |
| TimerCancel.BatchOutcome | stnl/Timer.cpp:130-143 | a timer of the batch is queued again exactly once, one interval after the batch time, iff it is periodic and no callback cancelled its address; otherwise it is gone |
| TimerCancel.CancelledInOwnBatch | stnl/Timer.cpp:95-143 | a timer cancelled by a callback of its own batch runs in that batch and never later |
| TimerCancel.CancelledFromCallback | stnl/Timer.cpp:78-100 | a timer not yet due that a callback cancels never runs |
| TimerCancel.StaleCancelStopsAnother | stnl/Timer.cpp:95-97 | cancelling from a callback an id that nobody has stops a periodic timer of the batch at the same address |
| TimerIds.StaleCancelExample | stnl/Timer.h:79-79 | a run with ids from the counter in which a callback cancels the id of a destroyed timer and thereby stops the periodic timer that took its address |
| TimerIds.CountFollows | stnl/Timer.cpp:34-41 | the number of live timers is the counter: a construction adds one, a destruction by a cancel takes one |
| TimerIds.IdRepeatsIff | stnl/Timer.h:79-79 | after a cancel the next timer at the address gets the same id, counter value and address, iff the cancelled timer was the last in the count |
| TimerIds.RepeatedIdCancelsAnother | stnl/Timer.cpp:78-100 | then cancelling with the id of the first timer takes the second one away |
| TimerQueues.TimerQueue.InsertInLoop | stnl/Timer.cpp:203-241 | inserts into both indexes, rearms iff the timer is the earliest, and is the agenda's insertion; all size and emplace assertions hold |
| TimerQueues.TimerQueue.CancelInLoop | stnl/Timer.cpp:78-100 | the two-index cancel is the agenda's cancel; the equal_range search finds the timer whenever its id is active |
| TimerQueues.TimerQueue.GetAllExpirationTimer | stnl/Timer.cpp:105-128 | moves exactly the due timers out of both indexes |
| TimerQueues.TimerQueue.ResetExpirationTimers | stnl/Timer.cpp:130-154 | puts back the periodic timers not cancelled meanwhile and rearms for the earliest |
| TimerQueues.TimerQueue.TimerReadingCallback | stnl/Timer.cpp:156-180 | the whole expiry with its loops and arbitrary callbacks is the agenda's expiry |
| TimerQueues.SizesAgree | stnl/Timer.cpp:81-126 | the multimap and the id set agree, hence have equal sizes |
| LogProperties.StepPool | stnl/logger.cpp:429-497 | no atomic step uses a null buffer or fails an assertion; a null next buffer implies a queued full one and every replacement is empty |
| LogProperties.AppendDoes | stnl/logger.cpp:503-530 | a message goes into the current buffer iff that leaves one of its 4000000 bytes free; otherwise the buffer is queued and the next one begins with the message |
| LogProperties.BeginsAndStops | stnl/logger.cpp:400-433 | the thread begins with two empty spares, and leaves its loop at the next test after stop |
| LogProperties.QuietPassDoes | stnl/logger.cpp:429-498 | an undisturbed pass hands all that was held to the file, or a notice and the first two of more than 25 buffers, and leaves every buffer empty |
| LogProperties.RunConserves | stnl/logger.cpp:418-530 | in every interleaving the accepted bytes are, in lock order, what left, the unwritten part of the pass and the front end's buffers |
| LogProperties.PassWrites | stnl/logger.cpp:457-478 | a complete pass adds all of its buffers in order, or exactly the first two if there were more than 25 |
| LogProperties.OutputIsSubsequence | stnl/logger.cpp:457-478 | the file's message bytes are an in-order subsequence of the accepted ones and the missing ones are accounted for |
| LogProperties.NoLossWithoutDrop | stnl/logger.cpp:429-530 | if no pass sees more than 25 buffers, file, pass and buffers together are the accepted messages |
| LogProperties.StopLeavesMessages | stnl/logger.cpp:411-416 | a run in which a message accepted before stop is never written |
| LogProperties.HeldIsSinceExchange | stnl/logger.cpp:435-530 | what the front end's buffers hold is exactly what was accepted since the last exchange |
| LogProperties.ExitIsCompleteIff | stnl/logger.cpp:429-500 | at exit the output is complete up to dropped buffers iff no non-empty message was accepted after the last exchange |
| AsyncLoggings.FixedBuffer.Append | stnl/Buffer.h:68-86 | the message is copied behind the contents iff it leaves a free byte |
| AsyncLoggings.AsyncLogging.Append | stnl/logger.cpp:503-530 | the rotation of buffer objects is the stream's append step; no buffer ever has two owners |
| AsyncLoggings.AsyncLogging.Exchange | stnl/logger.cpp:435-454 | the locked block is the stream's exchange step and leaves a buffer to write |
| AsyncLoggings.AsyncLogging.Drop | stnl/logger.cpp:457-473 | the drop branch is the stream's drop step |
| AsyncLoggings.AsyncLogging.Recycle | stnl/logger.cpp:480-497 | the pass always has enough buffers for both spares, which end up empty |
| AsyncLoggings.AsyncLogging.Test | stnl/logger.cpp:429-433 | the assertions at the head of the loop hold on every iteration |
| AsyncLoggings.AsyncLogging.Pass | stnl/logger.cpp:429-498 | one iteration of the back end, with given appends and stops between all of its steps, is the stream's run of exactly those events in that order |
| LoopProperties.NoLostWakeup | stnl/EventLoop.cpp:165-177 | in epoll_wait with tasks pending, the eventfd is readable or a producer is about to write it, if the loop thread queues nothing outside loop() |
| LoopProperties.WakeupsAreOwed | stnl/EventLoop.cpp:165-177 | over any run the wakeups that other threads still owe are one for each task and each quit, less those written |
| LoopProperties.TokensAreKept | stnl/EventLoop.cpp:82-106 | over any run the eventfd counts exactly what has been written to it and not read: by those threads, and by the loop thread for each task queued from a batch |
| LoopProperties.NoTaskIsDropped | stnl/EventLoop.cpp:64-80 | over any run the tasks run, left in the batch and pending are exactly those queued by the events |
| LoopProperties.LoopStarts | stnl/EventLoop.cpp:109-117 | loop() sets both flags and goes to epoll_wait |
| LoopProperties.IterationDoes | stnl/EventLoop.cpp:117-133 | an undisturbed iteration takes one token iff the wakeup was reported, runs all that was pending and returns to epoll_wait, or leaves loop() iff running_ has been cleared |
| LoopProperties.CallsDo | stnl/EventLoop.cpp:138-177 | what queueing and quitting change, by the thread and the phase |
| LoopProperties.StrandedIff | stnl/EventLoop.cpp:165-177 | in the first epoll_wait of any call of loop() tasks are stranded iff some were pending at the call, no wakeup was there or on its way, and no other thread has queued or quit since |
| LoopProperties.LaterNeverStranded | stnl/EventLoop.cpp:64-90 | in every later epoll_wait of that call pending tasks have a token or a coming wakeup |
| LoopProperties.QueuedBeforeLoopIsStranded | stnl/EventLoop.cpp:172-176 | a run in which it happens |
| LoopProperties.TasksRunInOrder | stnl/EventLoop.cpp:64-80 | tasks run, rest of the batch and pending tasks always make up the queue order |
| LoopProperties.IterationRunsTheQueue | stnl/EventLoop.cpp:117-133 | when the loop is back at its test everything queued by the time epoll_wait returned has run, in order |
| LoopProperties.BatchIsFixed | stnl/EventLoop.cpp:69-77 | a batch consists of what was swapped out; tasks queued meanwhile wait |
| LoopProperties.QuitIsFinal | stnl/EventLoop.cpp:138-147 | after a quit, until loop() is called again, running_ stays cleared, no further epoll_wait starts and at most the current iteration's batch runs |
| LoopProperties.QuitClears | stnl/EventLoop.cpp:138-147 | a quit by any thread clears running_ wherever it can be called |
| LoopProperties.QuitWakesTheLoop | stnl/EventLoop.cpp:138-147 | in epoll_wait with running_ cleared the eventfd is readable or the quitting thread is about to write it |
| LoopProperties.QuitIsUndoneIff | stnl/EventLoop.cpp:111-147 | over any run after a quit, running_ is set again iff loop() is called, and only then can epoll_wait be entered again |
| LoopProperties.LoopMayStart | stnl/EventLoop.cpp:111-112 | the assertions at the head of loop() hold whenever the thread is outside it |
| EventLoops.EventLoop.QueueInLoop | stnl/EventLoop.cpp:165-177 | pushes, and wakes iff the caller is another thread or a batch is running |
| EventLoops.EventLoop.Quit | stnl/EventLoop.cpp:138-147 | clears running_ and leaves a wakeup to be written by another thread's call |
| EventLoops.EventLoop.WakeupReadCallback | stnl/EventLoop.cpp:82-90 | the read finds a token and takes one |
| EventLoops.EventLoop.DoPendingFunctions | stnl/EventLoop.cpp:64-80 | runs exactly what was pending, in order, each followed by what happens during it, and keeps what is queued meanwhile |
| EventLoops.EventLoop.LoopBody | stnl/EventLoop.cpp:117-133 | one iteration is the run of its script's events in the source's order, and runs everything queued before, during epoll_wait and in the handlers |
| EventLoops.EventLoop.RunLoop | stnl/EventLoop.cpp:109-136 | the loop, with other threads acting at every point up to its test, is the run of the script's events in the source's order; it takes one batch per iteration and ends early iff running_ is found cleared |
| EpollState.StepAgrees | stnl/Epoll.cpp:80-120 | every operation that does not collide and destroys no registered channel passes the assertions, issues a legal epoll_ctl and keeps the three views in agreement |
| EpollState.RunAgrees | stnl/Epoll.cpp:80-137 | so does every run of such operations |
| EpollState.OrderlyRunsAgree | stnl/Channel.h:47-80 | it is enough that a channel is constructed on a descriptor on which none is registered, is used while it is the newest one there, and is removed before it is destroyed |
| EpollState.HandOverIsOrderly | stnl/TcpClient.cpp:105-129 | handing a descriptor over to a new channel while the removed one still exists is such a run |
| EpollState.DestroyAgreesIff | stnl/Epoll.cpp:111-120 | destroying a channel keeps the agreement iff it is not registered |
| EpollState.CollidingUpdateAsserts | stnl/Epoll.cpp:84-87 | a mask update fails its assertion iff it registers a channel whose descriptor another one holds |
| EpollState.RemovalAgreesIff | stnl/Epoll.cpp:111-120 | removing a channel keeps the agreement iff it does not collide |
| EpollState.RemovalOfUnregisteredTwin | stnl/Epoll.cpp:115-119 | two channels on one descriptor for which it does not |
| EpollState.ReportedIsMapped | stnl/Epoll.cpp:50-64 | whatever the kernel reports names the channel its descriptor is mapped to |
| EpollState.DisableAllTogglesDeleted | stnl/Epoll.cpp:102-108 | disableAll on a DELETED channel re-adds it with an empty mask, and once more takes it out |
| EpollState.ReadMaskIsIndependent | stnl/Channel.h:47-57 | enableRead and disableRead set and clear reading and leave writing alone |
| EpollState.WriteMaskIsIndependent | stnl/Channel.h:59-69 | enableWrite and disableWrite likewise |
| EpollState.UpdateAsks | stnl/Channel.h:47-75 | each mask update sets or clears the bits 0x0003 or 0x0004, or all, in the kernel's list and nowhere else; a registered channel that asks for nothing leaves the list |
| EpollState.KernelHasAsked | stnl/Epoll.cpp:80-137 | over any careful run the kernel has for a channel exactly the bits that its updates add up to |
| EpollState.RemovalForgets | stnl/Epoll.cpp:111-120 | a removal takes the descriptor out of the map and of the kernel's list |
| EpollState.UpdateAssertsIff | stnl/Epoll.cpp:80-109 | when the assertions of an update fail, whatever has happened before |
| Epolls.Channel.EnableRead | stnl/Channel.h:47-51 | sets the bits 0x0003 and has them registered |
| Epolls.Channel.EnableWrite | stnl/Channel.h:59-63 | sets the bit 0x0004 and has it registered |
| Epolls.Epoll.UpdateChannel | stnl/Epoll.cpp:80-109 | takes the objects to the selector's next state with a legal epoll_ctl |
| Epolls.Epoll.RemoveChannel | stnl/Epoll.cpp:111-120 | likewise |
| Epolls.Epoll.Select | stnl/Epoll.cpp:36-75 | collects the registered channels of the reported descriptors in order with their events, and doubles a full event array |
| Epolls.Channel.DisableAll | stnl/Channel.h:71-75 | clears the mask and updates the selector accordingly |
| TcpProperties.OutputStreamIntact | stnl/TcpConnection.cpp:103-217 | for any calls and partial or failed writes, kernel bytes followed by the output buffer are what was sent until closing, and a prefix of it always |
| TcpProperties.InputStreamIntact | stnl/TcpConnection.cpp:162-184 | bytes consumed followed by the input buffer are what was received |
| TcpProperties.WriteInterestTracksOutput | stnl/TcpConnection.cpp:140-197 | write interest implies pending output, and conversely while open |
| TcpStreams.SentIsPassed | stnl/TcpConnection.cpp:61-101 | over any run, what was sent is what the loop thread's sends passed while connected and the queued messages of other threads when they ran, in that order |
| TcpStreams.ReceivedIsArrived | stnl/TcpConnection.cpp:162-184 | over any run, what was received is what came in while the channel was registered |
| TcpStreams.CallDoes | stnl/TcpConnection.cpp:61-265 | send buffers and enables writing or queues, shutdown half-closes iff nothing is buffered or queues, forceClose queues, each in the states it works in |
| TcpStreams.TaskDoes | stnl/TcpConnection.cpp:103-281 | what each queued task does |
| TcpStreams.WriteDoes | stnl/TcpConnection.cpp:186-217 | a writable channel sends the longest prefix the kernel takes, stops writing when drained and then half-closes if disconnecting |
| TcpStreams.ReadDoes | stnl/TcpConnection.cpp:162-184 | bytes go to the input buffer, the end of the stream closes |
| TcpStreams.OwnerDoes | stnl/TcpConnection.cpp:34-59 | establishing, and destroying |
| TcpStreams.DrainDoes | stnl/TcpConnection.cpp:186-217 | when the kernel takes all, everything sent is with it |
| TcpStreams.ForceCloseCloses | stnl/TcpConnection.cpp:257-281 | a forced close has closed the connection by the time the queued tasks have run |
| TcpProperties.DirectWriteIsUnreachable | stnl/TcpConnection.cpp:113-138 | the branch that writes at once is never taken, so no result of ::write there matters |
| TcpStreams.DirectWriteWould | stnl/TcpConnection.cpp:113-152 | it would pass on what the kernel takes and buffer the rest, and an error of ::write would read past the message, because the unsigned `written` is never negative |
| TcpProperties.LifecycleIsOneWay | stnl/TcpConnection.cpp:34-281 | the state never moves backward and each connection callback is made at most once |
| TcpProperties.DispatchFailsIff | stnl/Channel.cpp:26-55 | handleClose's assertion fails in a dispatch iff end of stream is read on urgent data or half-close together with a hang-up without readable data |
| TcpProperties.RunFailsIff | stnl/TcpConnection.cpp:219-281 | over any run in which the owner does not destroy a disconnecting connection, an assertion fails iff a registered channel is at some point dispatched in that way |
| TcpProperties.CalmRunsAreSound | stnl/TcpConnection.cpp:219-281 | otherwise, despite repeated forceClose, the channel is registered exactly while the connection is open |
| TcpProperties.DestroyIsSoundIff | stnl/TcpConnection.cpp:46-59 | destroying leaves state and channel consistent iff the connection is not disconnecting |
| TcpProperties.DestroyWhileDisconnectingFails | stnl/TcpConnection.cpp:46-59 | otherwise a queued forced close re-registers the channel, and if somebody still refers to the connection after that task the next hang-up fails the assertion |
| TcpProperties.HalfCloseAfterDrain | stnl/TcpConnection.cpp:186-273 | with loop-thread callers SHUT_WR is issued at most once, only when everything sent is with the kernel, and nothing is sent afterwards |
| TcpProperties.ShutdownHappensIffDrained | stnl/TcpConnection.cpp:186-255 | without forced closes a disconnecting connection has issued SHUT_WR iff its output is drained |
| TcpProperties.SecondShutdownIff | stnl/TcpConnection.cpp:248-273 | a further SHUT_WR is issued iff a shutdown queued by another thread runs while the channel has no write interest |
| TcpProperties.LateBytesIff | stnl/TcpConnection.cpp:61-75 | bytes are sent after SHUT_WR iff a non-empty message queued by another thread runs |
| TcpProperties.ForeignShutdownTwice | stnl/TcpConnection.cpp:248-255 | a run with two SHUT_WR |
| TcpProperties.ForeignSendAfterShutdown | stnl/TcpConnection.cpp:61-75 | a run in which a message is stuck in the output buffer for good |
| TcpProperties.UpdatedIsUpdateChannel | stnl/Epoll.cpp:80-109 | the channel state of a connection changes as the selector changes it |
| TcpConnections.TcpConnection.SendInLoop | stnl/TcpConnection.cpp:103-150 | appends in place and enables writing; the direct-write branch is dead code |
| TcpConnections.TcpConnection.SendBuffer | stnl/TcpConnection.cpp:82-101 | sends the contents of the caller's buffer and empties it iff the connection is up |
| TcpConnections.TcpConnection.HandleWrite | stnl/TcpConnection.cpp:186-217 | retrieves what the kernel accepted, disables writing when drained and half-closes if disconnecting |
| TcpConnections.TcpConnection.HandleRead | stnl/TcpConnection.cpp:162-184 | reads into the input buffer, or closes on end of stream |
| TcpConnections.TcpConnection.HandleClose | stnl/TcpConnection.cpp:219-237 | closes an open connection, once |
| TcpConnections.TcpConnection.HandleEvents | stnl/Channel.cpp:26-55 | the four handlers in their order, with the user's calls, are one dispatch of the value model; an assertion fails iff the dispatch would close twice, whatever events are reported together |
| TcpConnections.TcpConnection.RunTask | stnl/TcpConnection.cpp:61-75 | what was left on the loop by another thread or a forced close runs as in the value model |
| NetBuffers.NetBuffer.Append | stnl/Buffer.cpp:61-89 | in place, sliding or growing, the queue gets the bytes at its end; fails exactly when the guard wraps around |
| NetBuffers.NetBuffer.MemoryMoving | stnl/Buffer.cpp:51-59 | sliding keeps the contents |
| NetBuffers.NetBuffer.ReadFD | stnl/Buffer.cpp:10-49 | the two-segment read appends what was received |
| NetBuffers.NetBuffer.Prepend | stnl/Buffer.h:210-216 | puts the bytes in front of the queue |
| NetBuffers.NetBuffer.Retrieve | stnl/Buffer.h:238-255 | drops a prefix of the queue |
| NetBuffers.NetBuffer.RetrieveAsString | stnl/Buffer.h:260-274 | returns the prefix it drops |
| ByteQueues.AppendAbortsIff | stnl/Buffer.cpp:69-75 | the assertion of memoryMoving fails iff the message does not fit and fewer than 8 bytes are free on both sides together |
| ByteQueues.ReserveIsSafe | stnl/Buffer.cpp:69-75 | it cannot fail while the reserve in front of the contents is intact |
| ByteQueues.StepAssertsIff | stnl/Buffer.cpp:10-89 | for each operation of a buffer, exactly when an assertion fails |
| ByteQueues.StepMeans | stnl/Buffer.h:210-282 | each operation puts its bytes at the end or in front, or takes them from the front |
| ByteQueues.FillDelivers | stnl/Buffer.cpp:10-49 | a read delivers what waits, up to the free space, and up to 65536 bytes beyond it if that is less than 65536 |
| ByteQueues.StepPlaces | stnl/Buffer.cpp:51-89 | where the bytes lie afterwards: in place, slid to the reserve of 8 iff that makes room, or in storage grown to the exact size |
| ByteQueues.RunIsPlain | stnl/Buffer.cpp:10-89 | as long as no more than 64 KiB wait at once, any run is that of a plain queue of bytes |
| ByteQueues.ModerateNeverAsserts | stnl/Buffer.cpp:10-89 | no run without prepends and without taking more than there is fails an assertion |
| ByteQueues.RunIsFifo | stnl/Buffer.h:238-282 | over any run without prepends, what is taken followed by what is left is what was there followed by what came in |
| ByteQueues.RunConserves | stnl/Buffer.h:210-282 | over any run, prepends included, no byte is lost or invented |
| NetBuffers.RunOps | stnl/Buffer.cpp:10-89 | any run of all operations on the array yields the contents, indices, size and bytes of the value model, and fails iff the model's run meets a failing assertion |
| NetBuffers.PrependThenAppendAborts | stnl/Buffer.cpp:61-75 | a run in which the wrapped guard leads to the failing assertion |
| ConnectorRuns.RunFailsIff | stnl/Connector.cpp:30-208 | if the client starts only while nothing is under way, an assertion fails, a socket is settled twice or a second timer is armed iff at some point the retry timer expires while the old channel has not been reset and the attempt proceeds |
| ConnectorRuns.NoRunFails | stnl/Connector.cpp:30-208 | so with retry timers that expire after their delay nothing fails, whatever else is called and reported |
| ConnectorRuns.PhasesHold | stnl/Connector.cpp:117-208 | in every run without an early start or timer, connecting means a registered channel and no queued reset; any other channel has exactly one queued reset; the timer is outstanding only while disconnected |
| ConnectorRuns.SocketsHaveOneOwner | stnl/Connector.cpp:76-194 | in such a run each socket is held by the connecting channel, or closed, or handed over, and the latter two are for ever |
| ConnectorRuns.StopIsFinal | stnl/TcpClient.cpp:98-103 | after a stop, until connect is called again, no attempt is made and no connection handed over |
| ConnectorRuns.NeverGivesUpSilently | stnl/Connector.cpp:177-194 | in such a run a disconnected connector that is to connect has a retry outstanding, its start queued, or met an error that is not retried |
| ConnectorRuns.RetriesBackOff | stnl/Connector.cpp:186-188 | the k-th retry since the last restart waits min(500 * 2^k, 30000) ms; a further start resets nothing |
| ConnectorRuns.StartInLoopFailsIff | stnl/Connector.cpp:51-63 | startInLoop fails iff the connector is not disconnected, or proceeds with the old channel present, or retries while a retry is outstanding |
| ConnectorRuns.StartIsSafeIff | stnl/Connector.cpp:30-63 | no polite continuation with timers in time fails after a start, whatever connect(2) answers, iff nothing is under way and no start is queued, and on the loop thread the old channel has been reset |
| ConnectorAttempts.BecomesSpentIff | stnl/Connector.cpp:130-163 | the state stays CONNECTED without a connection iff the connection was refused because of a stop, or lost or closed without a restart |
| ConnectorRuns.SpentForGood | stnl/Connector.cpp:51-63 | from there every later start fails, at once on the loop thread, and by the time it has run from another thread, whatever happens in between |
| ConnectorRuns.PrematureRetryFails | stnl/Connector.cpp:117-128 | a retry in the iteration that armed it fails the assertion of connecting |
| ConnectorAttempts.StartDoes | stnl/Connector.cpp:30-115 | a start makes a socket at once or queues; by errno the attempt is under way, waits for its retry timer, or has failed for good |
| ConnectorAttempts.FireDoes | stnl/Connector.cpp:186-187 | the retry timer makes a new attempt iff the connector is still to connect |
| ConnectorAttempts.LossDoes | stnl/TcpClient.cpp:131-148 | a lost connection leads to a new attempt with the delay back at 500 ms iff the client is to retry and to connect |
| ConnectorAttempts.LossRestarts | stnl/TcpClient.cpp:143-147 | that attempt has one new socket: under way, or closed with the timer armed for 500 ms, or closed for good, by the errno |
| ConnectorAttempts.Reconnects | stnl/TcpClient.cpp:131-148 | when it is established, the client has the new connection |
| ConnectorAttempts.DispatchDoes | stnl/Connector.cpp:130-175 | a connected socket is handed over, or closed if the client has stopped; an error or a self-connection closes it and waits for the retry timer |
| ConnectorAttempts.TaskDoes | stnl/Connector.cpp:51-74 | what each queued function does |
| ConnectorAttempts.CallsDo | stnl/TcpClient.cpp:75-103 | what the calls of other threads change |
| ConnectorProperties.DispatchInv | stnl/Connector.cpp:130-175 | write and error callbacks in one dispatch keep all phase invariants |
| ConnectorProperties.ExecuteInv | stnl/EventLoop.cpp:74-77 | so does every queued function; a reset runs before anything that closes the new connection |
| ConnectorProperties.LostInv | stnl/TcpClient.cpp:131-148 | a connection lost in the handlers of a later iteration finds the channel reset, and a restart keeps all invariants |
| ConnectorProperties.QueuedCloseFindsReset | stnl/TcpConnection.cpp:256-273 | a queued close of the connection that is due finds the channel reset |
| ConnectorLoop.NoSystemFails | stnl/Connector.cpp:30-208 | a new client on a new loop that also serves others: with polite starts and timers in time nothing fails in any run of both |
| ConnectorLoop.RunsAligned | stnl/EventLoop.cpp:64-133 | beside any run of its loop, shared with others, the connector's batches are the loop's and its queues are its part of the loop's |
| ConnectorLoop.QueuedRunsInTheIteration | stnl/EventLoop.cpp:117-133 | what the connector has queued when the loop is in its handlers has run when the loop is back at its test |
| Connectors.Connector.HandleWrite | stnl/Connector.cpp:130-163 | hands over, closes or retries as the value model says, with its assertion |
| Connectors.Connector.HandleError | stnl/Connector.cpp:165-175 | abandons the attempt and retries |
| Connectors.Connector.Connect | stnl/Connector.cpp:76-115 | proceeds, retries or gives up by the error |
| Connectors.Connector.StopInLoop | stnl/Connector.cpp:65-74 | abandons a running attempt |
| Connectors.Connector.HandleEvents | stnl/Channel.cpp:26-55 | write then error callback on the connecting channel |
| Connectors.Connector.RetryTimerExpired | stnl/Connector.cpp:186-187 | an expiry at any time; it fails iff the old channel has not been reset and the attempt proceeds |
| Connectors.Connector.ConnectionLost | stnl/TcpClient.cpp:131-148 | losing the connection in the handlers finds the channel reset, so a restart meets its assertions |
| Connectors.Connector.DoPendingFunctions | stnl/EventLoop.cpp:64-80 | one batch of the connector's queued functions, with calls of other threads, polite starts among them, before, between and after them |

## Left out

- Socket.cpp and SockAddr: thin wrappers, address formatting and layout.
- Thread, EventLoopThread and CountDownLatch: thread plumbing; their start handshake waits without a predicate.
- EventLoopThreadPool: round-robin choice of a loop.
- TcpServer's acceptor and connection map: the keys depend on peer addresses; its use of connectionDestory is an event.
- Log formatting, ConsoleHandler, file rolling, flush timing and the condition variable's timeout: the file is an append-only sequence and the back end may proceed at any time.
- FixedBuffer::add, and eventfd counter overflow at 2^64 - 2.
- EventLoop::runInLoop on the loop thread: it calls the function directly and queues nothing.
- Timers of other loops in TimerIds: the counter is process-wide, and there it counts the timers of one queue; elsewhere ids are arbitrary.
- Floating-point intervals in addTime: intervals are integer nanoseconds of at least one; int64 overflow of times is not modelled.
- The time between intervalFromNow's reading of the clock and timerfd_settime: arming happens at one instant.
- Data races on `socketState_`, lifetime of a bound `this`, and shared_ptr counts: every event is atomic.
- Calls of ::write, ::connect, ::readv, epoll_wait and getsockopt: their results are parameters; a refused epoll_ctl, which the source ignores, shows as an outcome and is proved not to occur.
- A batch of active channels in which one handler destroys another channel of the same batch: a dispatch is of a registered channel.
- TcpConnections.TcpConnection.HandleEvents: message callbacks that prepend to the input buffer are not modelled, because the next read could then fail the assertion of memoryMoving as ByteQueues.AppendAbortsIff says.
- NetBuffers.NetBuffer.Append: sizes are below a quarter of the address space, because vector::resize fails first.
- EventLoops.EventLoop.RunLoop: runs for as many iterations as its script has, because the loop itself need not end.
- writeCompletionCallback_: its only call is in the dead branch of sendInLoop.
