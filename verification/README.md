# TinyNetwork, modelled and proved

TinyNetwork is a reactor network library with one event loop per thread, and an asynchronous logger.
This project models its core and proves what that core is for, over every input and every
interleaving of its threads.

| part | files |
|---|---|
| Connection lifetime across the base loop and the I/O loops | ServerSpec, ServerInvariant, ServerSafety, TcpServer |
| The server with its connections and pollers behind it | Deployment |
| Wakeup protocol and functor queue of an event loop | LoopSpec, EventLoop |
| One connection: output path, input path, half-close, callbacks, dispatch | ConnectionSpec, ConnectionLaws, TcpConnection |
| The byte queue in an array, with its scatter read | ByteBuffer |
| Channel, poller and kernel registration | Epoll |
| The double-buffered logger and its buffers | LoggerSpec, AsyncLogging, FixedBuffer |
| Decimal printing in place | Decimal, LogStream |
| Round-robin dispatch and connection names | ThreadPool |

Each part has a specification (a state, its atomic steps, and runs of them in any order) about which
the main theorems are proved, and a class in the form of the source, with the same fields updated in
place, whose methods are proved to take exactly the specified steps; `RunOn` and `RunOps` state the run
theorems of the real buffers and objects. `TcpServer` has the source's own fields; loops and connections
are ghost state there, and Deployment proves what that state stands for: one connection of ConnectionSpec
behind each record and one table of EpollSpec behind each loop. System calls are steps: `write`
and `readv` may give any short count or an error, `epoll_wait` any ready set, `epoll_ctl` succeeds or
refuses according to the kernel's table, and a condition wait may end at any time.

`dafny verify dfyconfig.toml` checks everything.

## Read as intended

Where the code as it stands cannot mean what it says, both readings are recorded.

- include/logger/FixedBuffer.h:29-31: `length()` measures to `end()`. `Length` is the intended
  `cur_ - data_`; `LengthAsWritten` states what the code gives.
- src/net/TcpConnection.cpp:182: `!state_ == kDisconnecting` is never true. Both tests are modelled
  (`DrainTest`): the intended one keeps the promise of `shutdown`, and for the test as it stands the
  exact condition for a half-close and a run that misses it are proved.
- src/net/Buffer.cpp:24 and src/net/poller/EpollPoller.cpp:23: the result is unsigned, so the error
  branch is dead. The signed result is modelled.
- src/net/TcpConnection.cpp:60-61: an off-thread `send` captures a pointer. The functor is modelled as
  carrying the bytes, as the other overload does at lines 73-74.

## Assumptions

- `shutdown()`'s test and set of `state_` (src/net/TcpConnection.cpp:125-126) are one step.
- In the server model a dispatch closes its connection at most once. `ConnectionLaws.DispatchClosesOnceIff` gives
  the one combination of events for which the code closes twice.
- Wakeups are never lost provided that, if anything is queued ahead of `loop()`, another thread has
  queued something; `NoLostWakeupIff` shows that this is exactly what is needed.
- After `shutdown(SHUT_WR)` the kernel answers a write with EPIPE (`RefusesAfterHalfClose`).
- In Deployment a connection's number stands for its descriptor, so live descriptors are distinct.
- `nextConnId_` stays below 2^31 and the server's ip:port text has at most 51 characters;
  `NamesDistinctIff` shows that names can repeat otherwise.
- `char` is Dafny's `char`, and sizes are unbounded: a length above `INT_MAX` passed to
  `makeSpace(int)` (include/net/Buffer.h:110) is not modelled.

## Model

| member | source | states |
|---|---|---|
| `ServerSafety.NoDanglingChannel` | src/net/TcpServer.cpp:74-94 | In every reachable state of base loop and I/O loops, a connection whose channel is in a poller, in the kernel or in an active list is owned by the map, a functor, a dispatch guard or the user, and has not been destroyed |
| `ServerSafety.DispatchFindsItsConnection` | src/net/Channel.cpp:33-46 | Whenever a loop is about to dispatch, locking the tie succeeds: the connection at the head of the active list is alive, and the guard then holds it |
| `ServerSafety.FunctorFindsItsConnection` | src/net/EventLoop.cpp:136-148 | Every queued functor can run when its turn comes, and the connection it is bound to is alive |
| `ServerSafety.DeadIsFinished` | src/net/TcpServer.cpp:85-95 | A destroyed connection is unowned, unregistered and in no active list; it was closed, erased and torn down exactly once and its user saw exactly up, down |
| `ServerSafety.HandOffsBalance` | src/net/TcpServer.cpp:85-95 | In every reachable state each close is matched by one erase, done, still queued on the base loop or still due in the dispatch that closed, and each erase by one connectDestroyed, done or still queued on the connection's own loop; a connection closes at most once |
| `ServerSafety.ConnectionProtocol` | src/net/TcpConnection.cpp:137-153 | The user's connection callbacks are a prefix of up, down and match the state exactly; a channel is registered exactly between up and down; the map lists a connection exactly until its erase |
| `ServerSafety.StatesMoveForward` | src/net/TcpConnection.cpp:124-153 | No step of any thread moves any connection's state backwards or to another loop |
| `ServerSafety.NewConnectionIsFresh` | src/net/TcpServer.cpp:50-74 | The map insert of a new connection never replaces an entry, and the k-th connection goes to the round-robin choice k-1 |
| `ServerSafety.NewConnectionMovesForward` | src/net/TcpServer.cpp:50-83 | Accepting leaves every earlier connection exactly as it was |
| `ServerSafety.EachFunctorRunsOnce` | src/net/EventLoop.cpp:136-148 | In every run each loop runs what steps of any thread hand it, establishing, removing, tearing down and notifying, in the order it was handed over and exactly once |
| `ServerSafety.EverythingOnItsLoop` | src/net/TcpServer.cpp:74-95 | In every reachable state functors that establish, tear down or notify wait on their connection's loop, and removals on the base loop |
| `ServerSafety.DispatchedOnItsLoop` | src/net/EventLoop.cpp:66-68 | A loop dispatches only its own connections |
| `ServerSafety.ActiveIsTheRest` | src/net/EventLoop.cpp:61-68 | In every run the active list is what the last poll reported and has not had its turn, in order |
| `ServerSafety.EveryReadyIsServed` | src/net/EventLoop.cpp:61-76 | Each ready connection gets its turn, in order and under the guard, and none is left when the loop goes on to its functors |
| `ServerSafety.KeptIsAlive` | src/net/TcpConnection.cpp:49-51 | A connection the user has taken and not dropped is not destroyed |
| `ServerSafety.DestroyedIsReclaimed` | src/net/TcpConnection.cpp:49-51 | An object is destroyed exactly when its destructor has run |
| `Deployment.KernelHoldsOnlyLiving` | src/net/TcpConnection.cpp:137-153 | With every record backed by its connection and every loop by its registration table: whatever a poller's map or the kernel lists is a live, owned connection of that loop, listed with exactly the events its connection wants, and no epoll_ctl was ever refused |
| `Deployment.ConnectionsBehave` | src/net/TcpConnection.cpp:83-122 | Every connection of a running server goes through a run of ConnectionSpec: its bytes are conserved and its user hears a prefix of up, down |
| `Deployment.HistoryIsTheRun` | src/net/TcpServer.cpp:50-95 | What has happened to a connection is, in order, what the run of the whole server did to it: no event is lost on its way and none reaches another connection |
| `Deployment.NothingMissing` | src/net/Channel.cpp:33-46 | No enabled step of a running server touches a connection, channel or loop that does not exist |
| `Deployment.StepKeepsJoint` | src/net/TcpServer.cpp:50-95 | Every step of server, connections and pollers together keeps record, connection, channel and kernel in agreement |
| `Deployment.EstablishSimulated` | src/net/TcpConnection.cpp:137-144 | Establishing moves record, connection and registration to the same state |
| `Deployment.CloseSimulated` | src/net/TcpConnection.cpp:196-203 | So does closing |
| `Deployment.DestroySimulated` | src/net/TcpConnection.cpp:146-153 | So does connectDestroyed, which leaves the channel unregistered |
| `Deployment.ShutdownSimulated` | src/net/TcpConnection.cpp:124-129 | So does shutdown, which leaves the registration alone |
| `Deployment.ExchangeSimulated` | src/net/TcpConnection.cpp:83-122 | Reads, writes and sends leave the record true and the channel listening for what the connection wants |
| `Deployment.ReclaimKeepsJoint` | src/net/TcpConnection.cpp:49-51 | Destroying an unowned connection leaves no trace of its channel in any table |
| `Deployment.EffectReady` | src/net/EventLoop.cpp:144-146 | Every establishing, closing and destroying finds its connection alive and in the state it starts from |
| `ServerSafety.ReachableInv` | src/net/TcpServer.cpp:50-95 | Every state reached from a fresh server by any interleaving satisfies the global ownership invariant |
| `ServerInvariant.StepKeepsInv` | src/net/TcpServer.cpp:50-95 | Every step of every thread keeps the global ownership invariant |
| `ServerInvariant.PointedAtIsOwned` | src/net/Channel.cpp:33-46 | Under the invariant, a channel anything points at belongs to an owned connection |
| `ServerInvariant.NewConnectionKeepsInv` | src/net/TcpServer.cpp:50-83 | Accepting a connection keeps the invariant, whether connectionEstablished runs at once or is queued |
| `ServerInvariant.MarkClosedKeepsInv` | src/net/TcpConnection.cpp:196-201 | The first half of handleClose, up to the user's callback, keeps the invariant |
| `ServerInvariant.HandOverKeepsInv` | src/net/TcpServer.cpp:85-87 | Handing a closed connection to the base loop, directly or through its queue, keeps the invariant |
| `ServerInvariant.RunOneKeepsInv` | src/net/EventLoop.cpp:144-146 | Running the next functor of a batch keeps the invariant, whatever the functor |
| `ServerInvariant.PollReturnKeepsInv` | src/net/EventLoop.cpp:63-68 | Any subset of registered channels becoming active keeps the invariant |
| `ServerInvariant.EndDispatchKeepsInv` | src/net/EventLoop.cpp:66-68 | Dropping the dispatch guard keeps the invariant |
| `TcpServer.TcpServer.constructor` | src/net/TcpServer.cpp:15-29 | The server object starts in the initial state of the model |
| `TcpServer.TcpServer.NewConnection` | src/net/TcpServer.cpp:50-83 | The new entry replaces none, the loop is the pool's next, and the lifetime invariant is kept |
| `TcpServer.TcpServer.RemoveConnection` | src/net/TcpServer.cpp:85-87 | The close callback finds its entry in the map; it goes at once on the base loop and waits for the queued removal otherwise; the lifetime invariant is kept |
| `TcpServer.TcpServer.RemoveConnectionInLoop` | src/net/TcpServer.cpp:89-95 | The queued removal finds its entry still in the map and erases that entry alone; the lifetime invariant is kept |
| `LoopSpec.NoLostWakeup` | src/net/EventLoop.cpp:97-106 | For any number of producers and any interleaving, when the loop is at poll with functors pending, the eventfd is readable or another thread has pushed and still owes its wakeup decision; assumes the condition of NoLostWakeupIff |
| `LoopSpec.NoLostWakeupIff` | src/net/EventLoop.cpp:97-106 | A run is never at poll with functors pending, the eventfd at zero and no other thread owing a wakeup, if and only if, whenever loop() starts after some push, some push before it came from another thread |
| `LoopSpec.AheadOfLoop` | src/net/EventLoop.cpp:97-106 | Ahead of loop() the eventfd is readable or a decision is owed by another thread exactly when another thread has pushed |
| `LoopSpec.AwakeOnceStarted` | src/net/EventLoop.cpp:61-76 | Under that condition, once loop() runs every state with functors pending outside a dispatch has a wakeup made or owed |
| `LoopSpec.StepStaysAwake` | src/net/EventLoop.cpp:97-148 | Once the loop runs, no step of any thread loses the wakeup |
| `LoopSpec.WakeupArrives` | src/net/EventLoop.cpp:103-114 | From such a poll at most one more step, an owed decision, makes the poll return with the eventfd ready |
| `LoopSpec.EarlyPushIsLost` | src/net/EventLoop.cpp:103-105 | A concrete run: a functor queued by the loop thread before loop() is pending at poll with no wakeup made or owed |
| `LoopSpec.RequeueWakes` | src/net/EventLoop.cpp:103-105 | A functor queued by a running functor leaves the eventfd readable |
| `LoopSpec.CounterIsWakeups` | src/net/EventLoop.cpp:103-122 | In every run the eventfd is the number of wakeups written since it was last read, up to saturation |
| `LoopSpec.CounterAtMostDecisions` | src/net/EventLoop.cpp:103-122 | It is at most the number of wakeup decisions made since it was last read, so zero when there were none |
| `LoopSpec.ReportedWakeupIsRead` | src/net/EventLoop.cpp:61-76 | A turn in which poll reported the wakeup channel reads it before its functors run |
| `LoopSpec.QuietLoopSleeps` | src/net/EventLoop.cpp:61-76 | A loop back at poll with no decision made since the eventfd was last read finds it unreadable: it does not spin |
| `LoopSpec.QueueIsFifo` | src/net/EventLoop.cpp:136-148 | In every run, functors executed, then the rest of the batch, then those pending are the functors of all pushes made, in order and once each |
| `LoopSpec.StepConsistent` | src/net/EventLoop.cpp:136-148 | Every step of any thread keeps that queue invariant |
| `EventLoop.EventLoop.QueueInLoop` | src/net/EventLoop.cpp:97-106 | The object performs the model's push and decision; off the loop, or inside a batch, the eventfd ends up readable |
| `EventLoop.EventLoop.RunInLoop` | src/net/EventLoop.cpp:88-95 | On the loop thread the functor runs at once and what arrives meanwhile is pending; any other thread queues it |
| `EventLoop.EventLoop.Wakeup` | src/net/EventLoop.cpp:108-114 | Adds one to the eventfd unless it is saturated |
| `EventLoop.EventLoop.HandleRead` | src/net/EventLoop.cpp:116-122 | Empties the eventfd, the counter is zero, and leaves the queue alone |
| `EventLoop.EventLoop.SwapBatch` | src/net/EventLoop.cpp:138-143 | The batch is exactly what was pending at the swap |
| `EventLoop.EventLoop.RunFunctor` | src/net/EventLoop.cpp:144-146 | One functor is executed, and whatever it or other threads queue meanwhile joins the pending ones with a wakeup |
| `EventLoop.EventLoop.QueueAll` | src/net/EventLoop.cpp:97-106 | Several calls from any threads leave their functors pending in order |
| `EventLoop.EventLoop.DoPendingFunctors` | src/net/EventLoop.cpp:136-148 | Terminates and executes exactly the functors pending at the swap, in order, whatever they, themselves again or other threads queue meanwhile; all of that is pending afterwards, in order of arrival, with the eventfd readable |
| `EventLoop.EventLoop.LoopOnce` | src/net/EventLoop.cpp:61-76 | One turn of loop(): everything pending before or queued during the dispatch, by any thread, is executed in order, and whatever is left behind has a wakeup; a turn that read the wakeup with nothing pending and no traffic leaves the eventfd unreadable |
| `EventLoop.FunctorsByOneMore` | src/net/EventLoop.cpp:144-146 | Arrivals are pending in the order they were queued |
| `ConnectionSpec.Conservation` | src/net/TcpConnection.cpp:83-122 | In every run, with any short writes and errors, bytes taken by the kernel followed by the output buffer equal, in order, every message except those sent on a closed connection and those a direct write met with EPIPE or ECONNRESET |
| `ConnectionSpec.SendOutcome` | src/net/TcpConnection.cpp:83-122 | A send adds exactly its bytes at the end of the stream, unless the connection is disconnected, or nothing was waiting and the direct write met EPIPE or ECONNRESET: then the connection is as it was |
| `ConnectionLaws.WireIsWhatWasTaken` | src/net/TcpConnection.cpp:93-95 | In every run the wire is exactly as long as the counts returned by the writes made, the direct ones and those of handleWrite, add up to |
| `ConnectionLaws.WireAndOutputFromTaken` | src/net/TcpConnection.cpp:171-178 | So the wire is that many of the accepted bytes, from the front, and the output buffer the rest |
| `ConnectionLaws.WriteMovesWhatWasTaken` | src/net/TcpConnection.cpp:171-178 | On a writing connection a write that takes n bytes moves the first n bytes of the output buffer to the wire; anything else leaves both alone |
| `ConnectionLaws.SendMovesWhatWasTaken` | src/net/TcpConnection.cpp:93-96 | A send adds to the wire what its direct write was told was taken, from the front of the message |
| `ConnectionLaws.InputIsTheRest` | src/net/TcpConnection.cpp:155-161 | In every run the input buffer holds exactly the bytes received and not yet taken out, in order |
| `ConnectionLaws.InputUntouched` | src/net/TcpConnection.cpp:155-161 | Only a read and the user change the input buffer |
| `ConnectionLaws.CallbacksMade` | src/net/TcpConnection.cpp:137-203 | In every run the callbacks made are, in order, exactly those its events call for: up on establishing, a message on every read that brings bytes, down and close on a hang-up or end of file, down on a tear-down of a connection still connected |
| `ConnectionLaws.CallbackCounts` | src/net/TcpConnection.cpp:155-203 | The number of message callbacks is that of non-empty reads, of close callbacks that of hang-ups and zero-byte reads, of down callbacks these and the tear-downs of connected connections |
| `ConnectionLaws.StateFromEvents` | src/net/TcpConnection.cpp:124-203 | The state of a connection, told from the events of its run alone |
| `ConnectionSpec.WriteConserves` | src/net/TcpConnection.cpp:171-194 | A write event only moves bytes from the buffer to the wire |
| `ConnectionSpec.ConservationStep` | src/net/TcpConnection.cpp:83-122 | Each event extends the stream by exactly what it accepted |
| `ConnectionSpec.WriteInterest` | src/net/TcpConnection.cpp:93-121 | While not disconnected, the channel asks for writability exactly when the output buffer is non-empty |
| `ConnectionSpec.ListensWhileOpen` | src/net/TcpConnection.cpp:93-203 | In every run a connection listens for input exactly while it is open, and for writability exactly while it is open and has bytes to write |
| `ConnectionSpec.StatesMoveForward` | src/net/TcpConnection.cpp:124-153 | State only moves forward through Connecting, Connected, Disconnecting, Disconnected |
| `ConnectionSpec.HalfCloseAfterLastByte` | src/net/TcpConnection.cpp:131-135 | A half-close of a live connection finds every accepted byte on the wire |
| `ConnectionSpec.SilentAfterHalfClose` | src/net/TcpConnection.cpp:131-135 | If the kernel answers every send after the half-close with EPIPE, nothing more is accepted, buffered or sent on the live connection |
| `ConnectionSpec.HalfClosedIsDrained` | src/net/TcpConnection.cpp:131-135 | Under the same kernel, a half-closed live connection has an empty output buffer |
| `ConnectionSpec.ShutdownKeepsItsPromise` | src/net/TcpConnection.cpp:182-184 | With the drain test as intended, a shutdown is followed by the half-close once the output has drained |
| `ConnectionSpec.DrainHalfCloses` | src/net/TcpConnection.cpp:177-184 | With the intended test, the event that drains a connection asked to shut down half-closes it |
| `ConnectionLaws.IntendedHalfClosesIff` | src/net/TcpConnection.cpp:131-184 | With the intended test a connection is half-closed if and only if some shutdownInLoop found no write interest or some write took all that waited on a connection asked to shut down |
| `ConnectionLaws.HalfCloseWasAskedFor` | src/net/TcpConnection.cpp:124-184 | With the intended test only a connection asked to shut down is half-closed |
| `ConnectionSpec.HalfCloseIsQuiet` | src/net/TcpConnection.cpp:131-135 | A half-close happens only without write interest |
| `ConnectionSpec.LeftConnected` | src/net/TcpConnection.cpp:124-129 | A queued shutdownInLoop runs only after the connection has left Connected |
| `ConnectionSpec.AsWrittenHalfClosesIff` | src/net/TcpConnection.cpp:182-184 | With `!state_ == kDisconnecting` as it stands, a connection is half-closed if and only if some shutdownInLoop found no write interest |
| `ConnectionSpec.AsWrittenBreaksThePromise` | src/net/TcpConnection.cpp:182-184 | One concrete run in which the intended test half-closes and the test as it stands never does |
| `ConnectionSpec.HighWaterCount` | src/net/TcpConnection.cpp:112-117 | With the callback set, high-water notifications minus falls below the mark is 1 if the buffered bytes are at or above the mark and 0 otherwise |
| `ConnectionSpec.HighWaterStep` | src/net/TcpConnection.cpp:112-117 | An event notifies exactly when it takes the buffered bytes from below the mark to it or above |
| `ConnectionLaws.HighWaterTellsSize` | src/net/TcpConnection.cpp:113-117 | The size a high-water notification carries is what is buffered after the send |
| `ConnectionSpec.WriteCompleteCount` | src/net/TcpConnection.cpp:174-181 | The number of write-complete callbacks queued is the number of times the output drained or a send completed at once, and none without a callback |
| `ConnectionSpec.CompletionStep` | src/net/TcpConnection.cpp:93-99 | An event queues exactly one write-complete callback if it empties the output or completes a send at once, and none otherwise |
| `ConnectionSpec.WriteCompleteMeansSent` | src/net/TcpConnection.cpp:93-99 | When one is queued, every accepted byte is on the wire |
| `ConnectionSpec.CountStep` | src/net/TcpConnection.cpp:93-117 | Notifications accumulate one event at a time |
| `ConnectionLaws.DispatchInOrder` | src/net/Channel.cpp:48-70 | What one dispatch calls, in order and how often, for any returned events: close on EPOLLHUP without EPOLLIN, read on EPOLLIN or EPOLLPRI, write on EPOLLOUT, each followed by what the user calls in its callback |
| `ConnectionLaws.DispatchWrites` | src/net/Channel.cpp:64-70 | A reported EPOLLOUT is served whatever else is reported: on a connection still writing then, what the kernel takes moves from the output buffer to the wire |
| `ConnectionLaws.ReadThenWrite` | src/net/Channel.cpp:56-70 | EPOLLIN with EPOLLOUT both reads the bytes and moves those written |
| `ConnectionLaws.DispatchCallbacks` | src/net/Channel.cpp:48-70 | The callbacks of one dispatch, whatever the user calls in them |
| `ConnectionLaws.DispatchClosesOnceIff` | src/net/Channel.cpp:48-63 | One dispatch, user calls included, makes at most one down callback if and only if it does not report EPOLLHUP and EPOLLPRI without EPOLLIN with a read that gives zero bytes |
| `ConnectionSpec.InTwo` | src/net/Channel.cpp:48-70 | A sequence of events may be performed in two parts |
| `TcpConnection.TcpConnection.constructor` | src/net/TcpConnection.cpp:25-47 | A new connection object is the fresh state, its channel unregistered and known to its poller |
| `TcpConnection.TcpConnection.ConnectionEstablished` | src/net/TcpConnection.cpp:137-144 | State, interest and the up callback as specified, and the poller's tables with them |
| `TcpConnection.TcpConnection.BufferOutput` | src/net/TcpConnection.cpp:117-120 | Bytes join the output buffer and writability is asked for |
| `TcpConnection.TcpConnection.RetireOutput` | src/net/TcpConnection.cpp:176-178 | Written bytes leave the output buffer and, when it is empty, interest in writability goes |
| `TcpConnection.TcpConnection.TryKernel` | src/net/TcpConnection.cpp:93-110 | The direct write of a send, for every answer of the kernel |
| `TcpConnection.TcpConnection.BufferRest` | src/net/TcpConnection.cpp:112-121 | The buffered remainder of a send and its high-water notification |
| `TcpConnection.TcpConnection.SendInLoop` | src/net/TcpConnection.cpp:83-122 | The whole of sendInLoop over the real buffer, channel and poller is the specified step |
| `TcpConnection.TcpConnection.Send` | src/net/TcpConnection.cpp:54-64 | On the loop it sends; off the loop it hands the bytes over; otherwise it does nothing |
| `TcpConnection.TcpConnection.SendBuffer` | src/net/TcpConnection.cpp:66-77 | The same bytes, and the caller's buffer, which may be the input buffer, is left empty exactly when the connection is open |
| `TcpConnection.TcpConnection.Shutdown` | src/net/TcpConnection.cpp:124-129 | Leaves Connected once and reports that a shutdownInLoop is due |
| `TcpConnection.TcpConnection.ShutdownInLoop` | src/net/TcpConnection.cpp:131-135 | Half-closes exactly without interest in writability |
| `TcpConnection.TcpConnection.HandleRead` | src/net/TcpConnection.cpp:155-169 | The bytes read, the message callback or the close are as specified |
| `TcpConnection.TcpConnection.HandleWrite` | src/net/TcpConnection.cpp:171-194 | The bytes written, callback and half-close are as specified |
| `TcpConnection.TcpConnection.HandleClose` | src/net/TcpConnection.cpp:196-203 | State, interest, down and close callbacks as specified, and the poller's tables with them |
| `TcpConnection.TcpConnection.ConnectDestroyed` | src/net/TcpConnection.cpp:146-153 | The channel ends up in neither the poller's map nor the kernel, whatever came before |
| `TcpConnection.TcpConnection.HandleEvent` | src/net/Channel.cpp:48-70 | A whole dispatch over the real objects, with any calls the user makes in the close and message callbacks, performs exactly the sequence of events the laws of a dispatch are about |
| `TcpConnection.TcpConnection.Perform` | src/net/TcpConnection.cpp:54-203 | Every event over the real buffers, channel and poller gives the specified connection and the specified change of the poller's and the kernel's tables |
| `TcpConnection.TcpConnection.PerformAll` | src/net/TcpConnection.cpp:54-203 | So does every sequence of events |
| `TcpConnection.RunOn` | src/net/TcpConnection.cpp:83-122 | After any run on real objects, bytes taken by the kernel followed by the bytes in the output array are all accepted messages in order, as many are taken as the kernel said, the input array holds what was received and not taken out, and the callbacks made are those due |
| `TcpConnection.TcpConnection.FinishDrain` | src/net/TcpConnection.cpp:179-184 | The callback and the half-close at the end of a drain are as specified |
| `ByteBuffer.RunWithinLimit` | include/net/Buffer.h:71-85 | Over any run of appends, retrieves and reads the layout holds as many bytes as the queue and the vector never exceeds max(8+initial, P+8, 2P+6), P the peak queue length |
| `ByteBuffer.RunOps` | include/net/Buffer.h:41-85 | After any sequence of appends, retrieves and reads on the real array, the bytes from the reader to the writer index are exactly the FIFO queue's, and the array is within that limit |
| `ByteBuffer.RunWithinTwicePeak` | include/net/Buffer.h:110-120 | Hence it never exceeds max(8+initial, 2P+7) |
| `ByteBuffer.LimitAttained` | include/net/Buffer.h:110-120 | The sharper bound is reached by a run for every peak of at least 2 |
| `ByteBuffer.EmptyRunKeepsSize` | include/net/Buffer.h:110-120 | A run that never holds a byte never grows the vector |
| `ByteBuffer.SizeNeverShrinks` | include/net/Buffer.h:110-113 | The vector never gets smaller over a run |
| `ByteBuffer.StepWithinLimit` | include/net/Buffer.h:71-85 | One operation keeps the space bound |
| `ByteBuffer.ReadBrings64K` | src/net/Buffer.cpp:12-36 | A read may always bring 64 KiB, exactly when the tail is smaller than that it may bring 64 KiB more than the tail, and only then can the vector grow |
| `ByteBuffer.Appended` | include/net/Buffer.h:81-85 | An append keeps 8 <= reader <= writer <= size and adds exactly its length |
| `ByteBuffer.Received` | src/net/Buffer.cpp:26-37 | A scatter read keeps the layout legal and adds exactly what was received |
| `ByteBuffer.Buffer.constructor` | include/net/Buffer.h:14-18 | A new buffer is the empty queue with the initial layout |
| `ByteBuffer.Buffer.Append` | include/net/Buffer.h:81-85 | The queue grows by exactly the bytes, through resize and slide |
| `ByteBuffer.Buffer.Extend` | include/net/Buffer.h:83-84 | Copying into the free tail and advancing the writer index appends the bytes to the queue |
| `ByteBuffer.Buffer.Perform` | include/net/Buffer.h:41-85 | Each operation acts on the array as on the queue |
| `ByteBuffer.Buffer.Retrieve` | include/net/Buffer.h:41-48 | The queue loses its first bytes, or all of them when too many are asked for |
| `ByteBuffer.Buffer.RetrieveAll` | include/net/Buffer.h:50-53 | The queue is emptied |
| `ByteBuffer.Buffer.RetrieveAsString` | include/net/Buffer.h:65-69 | The string returned followed by what is left is the old queue |
| `ByteBuffer.Buffer.RetrieveAllAsString` | include/net/Buffer.h:61-63 | Returns the whole queue and empties it |
| `ByteBuffer.Buffer.Slide` | include/net/Buffer.h:115-118 | The overlapping copy to the front keeps the queue |
| `ByteBuffer.Buffer.Resize` | include/net/Buffer.h:112 | Growing keeps every old byte in place |
| `ByteBuffer.Buffer.MakeSpace` | include/net/Buffer.h:110-120 | Makes room for the length without changing the queue |
| `ByteBuffer.Buffer.EnsureWritableBytes` | include/net/Buffer.h:71-75 | Room for the length afterwards, the queue unchanged |
| `ByteBuffer.Buffer.ReadableBytes` | include/net/Buffer.h:20-22 | The length of the queue |
| `ByteBuffer.Buffer.Peek` | include/net/Buffer.h:32-34 | The bytes from the reader index to the writer index are the queue |
| `ByteBuffer.Buffer.FillTailAndAppend` | src/net/Buffer.cpp:33-36 | The part in the tail and the part in the overflow array are appended in order |
| `ByteBuffer.Buffer.ReadFd` | src/net/Buffer.cpp:10-38 | The queue grows by exactly the bytes received, across the tail and overflow boundary; an error reports errno and changes nothing |
| `EpollSpec.RunAgrees` | src/net/poller/EpollPoller.cpp:46-71 | Over every run of opens, interest changes, removals and destructions, the kernel lists a descriptor exactly when its channel says added, with that channel's mask, the map exactly when it is not new, and no epoll_ctl is ever refused; assumes a channel is destroyed only after its removal |
| `EpollSpec.ChangeKeepsAgreement` | src/net/poller/EpollPoller.cpp:46-71 | Any interest change keeps the three tables in agreement and is accepted by the kernel |
| `EpollSpec.RemoveKeepsAgreement` | src/net/poller/EpollPoller.cpp:81-90 | Removal keeps agreement and makes the channel new again |
| `EpollSpec.DestroyKeepsAgreementIff` | src/net/poller/EpollPoller.cpp:81-90 | Destroying a channel is safe exactly when it has been removed |
| `EpollSpec.DisableAllTogglesRegistration` | src/net/poller/EpollPoller.cpp:52-66 | disableAll on a deleted channel puts it back in the kernel with an empty mask: it flips the registration |
| `EpollSpec.ChangedChannel` | src/net/poller/EpollPoller.cpp:46-71 | The index a channel has after an interest change, from its old index and its new mask |
| `EpollSpec.ListensForWhatWasAsked` | include/net/Channel.h:53-82 | In every run a live channel listens for input and urgent data exactly when reading was left on, for output exactly when writing was left on, and for nothing else; isReading and isWriting say so |
| `EpollSpec.KernelListensForIt` | src/net/poller/EpollPoller.cpp:46-71 | And a descriptor in the kernel's table is there with just those events |
| `Epoll.Channel.constructor` | src/net/Channel.cpp:8-14 | A new channel is interested in nothing and unregistered |
| `Epoll.Channel.SetInterest` | include/net/Channel.h:53-73 | The mask is updated and the poller told, as specified |
| `Epoll.Channel.EnableReading` | include/net/Channel.h:54-57 | Adds the read mask |
| `Epoll.Channel.EnableWriting` | include/net/Channel.h:62-65 | Adds the write mask |
| `Epoll.Channel.DisableWriting` | include/net/Channel.h:66-69 | Removes the write mask |
| `Epoll.Channel.DisableAll` | include/net/Channel.h:70-73 | Removes every event |
| `Epoll.Channel.Remove` | src/net/Channel.cpp:28-30 | The channel ends up new and off the poller's tables |
| `Epoll.EpollPoller.UpdateChannel` | src/net/poller/EpollPoller.cpp:46-71 | Map, kernel table and index change as specified |
| `Epoll.EpollPoller.RemoveChannel` | src/net/poller/EpollPoller.cpp:81-90 | Map, kernel table and index change as specified |
| `Epoll.EpollPoller.Update` | src/net/poller/EpollPoller.cpp:92-109 | epoll_ctl's effect or refusal on the kernel table |
| `Epoll.EpollPoller.FillActiveChannels` | src/net/poller/EpollPoller.cpp:73-79 | Each ready entry yields the live channel of its descriptor, in order, with its own returned events |
| `Epoll.EpollPoller.Poll` | src/net/poller/EpollPoller.cpp:22-44 | The active list is the ready list, and the event array doubles exactly when it was full |
| `LoggerSpec.Conservation` | src/logger/AsyncLogging.cpp:23-89 | In every run, lines in the file, then the unwritten rest of the batch, then buffers_, then currentBuffer_ are all lines shorter than a buffer, in append order |
| `LoggerSpec.NeverFaults` | src/logger/AsyncLogging.cpp:25-85 | No null dereference and no pop_back on an empty vector in any run; the spares are empty and currentBuffer_ is never null outside the lock |
| `LoggerSpec.StepKeepsInv` | src/logger/AsyncLogging.cpp:53-89 | Each step keeps the invariant: nextBuffer_ is null exactly while buffers_ is non-empty, and the batch can refill the missing spares |
| `LoggerSpec.AppendKeepsInv` | src/logger/AsyncLogging.cpp:23-39 | An append keeps it |
| `LoggerSpec.AllocatesBeyondTheSpare` | src/logger/AsyncLogging.cpp:28-37 | The front end allocates a buffer exactly from the second one it fills since the writer's last swap |
| `LoggerSpec.FourBuffersAtRest` | src/logger/AsyncLogging.cpp:53-89 | At the top of the writer's loop there are four buffers in all, plus one for each filled beyond the first |
| `LoggerSpec.AppendStream` | src/logger/AsyncLogging.cpp:23-39 | An append adds its line at the end of the stream if it is shorter than a buffer, and nothing otherwise |
| `LoggerSpec.SwapStream` | src/logger/AsyncLogging.cpp:54-67 | The critical section moves buffers without changing the stream |
| `LoggerSpec.WriteStream` | src/logger/AsyncLogging.cpp:69-71 | Writing a buffer moves its lines from the batch to the file |
| `LoggerSpec.StepStream` | src/logger/AsyncLogging.cpp:23-89 | Every step extends the stream by exactly what it accepted |
| `LoggerSpec.LineKeptIff` | include/logger/FixedBuffer.h:18-23 | A line survives if and only if it is shorter than a buffer |
| `LoggerSpec.FileIsPrefix` | src/logger/AsyncLogging.cpp:69-71 | The file is always a prefix of what was accepted |
| `LoggerSpec.BatchReachesTheFile` | src/logger/AsyncLogging.cpp:69-89 | After a batch the file lacks only what was logged since the swap |
| `LoggerSpec.LostAtStop` | src/logger/AsyncLogging.cpp:53-92 | When the writer has left its loop, the file lacks exactly the lines accepted since its last swap |
| `LoggerSpec.FrontEndIsSinceSwap` | src/logger/AsyncLogging.cpp:23-39 | The front end's buffers hold exactly those lines |
| `LoggerSpec.StoppedForGood` | src/logger/AsyncLogging.cpp:91 | After that nothing reaches the file any more |
| `LoggerSpec.StopLosesALine` | src/logger/AsyncLogging.cpp:53 | A concrete run in which stopping loses the only line accepted |
| `LoggerSpec.RecycleFaultsIff` | src/logger/AsyncLogging.cpp:73-85 | Recycling is safe exactly when there is a written buffer for every missing spare |
| `AsyncLogging.UnaliasedIff` | src/logger/AsyncLogging.cpp:23-85 | Exclusive ownership means exactly that no two of the unique pointers the logger holds are equal and all are live |
| `AsyncLogging.AsyncLogging.constructor` | src/logger/AsyncLogging.cpp:6-21 | Two different empty buffers; the initial state |
| `AsyncLogging.AsyncLogging.Append` | src/logger/AsyncLogging.cpp:23-39 | The front end over real buffers gives the model's next state; the buffers stay unaliased and hold exactly their lines' bytes; at most the new current buffer is allocated |
| `AsyncLogging.AsyncLogging.UseSpare` | src/logger/AsyncLogging.cpp:29-32 | The full buffer is pushed and the spare becomes current, unshared |
| `AsyncLogging.AsyncLogging.UseNew` | src/logger/AsyncLogging.cpp:33-35 | Without a spare, a newly allocated buffer becomes current |
| `AsyncLogging.AsyncLogging.StartWriter` | src/logger/AsyncLogging.cpp:44-48 | The writer gains two different empty buffers |
| `AsyncLogging.AsyncLogging.Swap` | src/logger/AsyncLogging.cpp:54-67 | The critical section moves pointers as the model says and shares none |
| `AsyncLogging.AsyncLogging.TakeFull` | src/logger/AsyncLogging.cpp:59-62 | The writer takes every full buffer and the current one, leaving its first spare |
| `AsyncLogging.AsyncLogging.RefillNext` | src/logger/AsyncLogging.cpp:63-65 | A missing next buffer is the second spare |
| `AsyncLogging.AsyncLogging.WriteOne` | src/logger/AsyncLogging.cpp:69-71 | The file grows by exactly the bytes of the next buffer |
| `AsyncLogging.AsyncLogging.Truncate` | src/logger/AsyncLogging.cpp:73-75 | At most two written buffers are kept |
| `AsyncLogging.AsyncLogging.RefillSpare1` | src/logger/AsyncLogging.cpp:77-81 | A missing first spare is the last written buffer, emptied |
| `AsyncLogging.AsyncLogging.RefillSpare2` | src/logger/AsyncLogging.cpp:82-86 | A missing second spare is the next to last, emptied |
| `AsyncLogging.AsyncLogging.Recycle` | src/logger/AsyncLogging.cpp:73-88 | The writer ends its round with both spares, empty and unshared, and an empty batch |
| `AsyncLogging.AsyncLogging.Perform` | src/logger/AsyncLogging.cpp:23-89 | Every step over real buffers is the specified one |
| `AsyncLogging.RunOn` | src/logger/AsyncLogging.cpp:23-89 | After any interleaved run on real buffers the file holds exactly the bytes of the lines written, a prefix of all accepted |
| `FixedBuffer.FixedBuffer.constructor` | include/logger/FixedBuffer.h:16 | A new buffer is empty |
| `FixedBuffer.FixedBuffer.Append` | include/logger/FixedBuffer.h:18-23 | Appends all the bytes, or nothing unless a byte is left over |
| `FixedBuffer.FixedBuffer.Avail` | include/logger/FixedBuffer.h:37-39 | Capacity minus what is stored |
| `FixedBuffer.FixedBuffer.Length` | include/logger/FixedBuffer.h:29-31 | The number of bytes stored, as intended |
| `FixedBuffer.FixedBuffer.LengthAsWritten` | include/logger/FixedBuffer.h:29-31 | As it stands length() gives the capacity, which is right exactly for a full buffer |
| `FixedBuffer.FixedBuffer.Add` | include/logger/FixedBuffer.h:41-43 | Accepts bytes already written at the cursor |
| `FixedBuffer.FixedBuffer.Reset` | include/logger/FixedBuffer.h:45-47 | Empties the buffer |
| `FixedBuffer.FixedBuffer.Bzero` | include/logger/FixedBuffer.h:49-51 | Every byte is zero |
| `FixedBuffer.FixedBuffer.ToString` | include/logger/FixedBuffer.h:53-55 | The bytes stored |
| `Decimal.RoundTrip` | src/logger/LogStream.cpp:8-27 | The text of any integer is a canonical decimal and parses back to it |
| `Decimal.FormatUnique` | src/logger/LogStream.cpp:8-27 | A canonical decimal is the text of its value |
| `Decimal.FormatInjective` | src/logger/LogStream.cpp:8-27 | Different integers have different texts |
| `Decimal.MagnitudeRoundTrip` | src/logger/LogStream.cpp:15-19 | The digits of a natural number parse back to it, without a leading zero unless it is zero |
| `Decimal.MagnitudeUnique` | src/logger/LogStream.cpp:15-19 | Digits without a leading zero are those of their value |
| `Decimal.MagnitudeLength` | src/logger/LogStream.cpp:15-19 | A number has at most k digits exactly when it is below 10 to the k |
| `Decimal.LengthAtMost20` | src/logger/LogStream.cpp:9 | Every signed or unsigned 64-bit integer takes at most 20 characters |
| `Decimal.ExtremesTake20` | src/logger/LogStream.cpp:9 | The smallest signed and the largest unsigned one take exactly 20 |
| `Decimal.TableIsSymmetric` | src/logger/LogStream.cpp:4-5 | Every remainder of truncated division by ten indexes the table at its digit |
| `Decimal.TruncatedParts` | src/logger/LogStream.cpp:16-18 | Truncated quotient and remainder by ten have the magnitudes of the natural ones (section 5.6 of ISO/IEC 14882:2011) |
| `LogStream.ReverseInPlace` | src/logger/LogStream.cpp:24 | Reverses the range in place and touches nothing else |
| `LogStream.ReverseAt` | src/logger/LogStream.cpp:24 | Where each character of the reversed text comes from |
| `LogStream.NextDigit` | src/logger/LogStream.cpp:15-19 | One turn of the loop moves one digit from what is still to come to what is written |
| `LogStream.LogStream.WriteDigits` | src/logger/LogStream.cpp:15-19 | The loop writes the digits backwards, at most 20 of them, for negative numbers too |
| `LogStream.LogStream.SignAndReverse` | src/logger/LogStream.cpp:20-24 | Sign, NUL and reversal leave the decimal text in place |
| `LogStream.LogStream.FormatInteger` | src/logger/LogStream.cpp:8-27 | Appends exactly the decimal when 48 bytes are free and nothing otherwise, writing no further than 21 bytes past the cursor |
| `ThreadPool.EventLoopThreadPool.Start` | src/net/EventLoopThreadPool.cpp:16-31 | The started loops join the pool in order |
| `ThreadPool.EventLoopThreadPool.GetNextLoop` | src/net/EventLoopThreadPool.cpp:33-44 | The k-th call returns loop k mod n, or the base loop when there is none |
| `ThreadPool.FairShare` | src/net/EventLoopThreadPool.cpp:33-44 | In any window of m connections each of n loops gets floor(m/n) or ceil(m/n) |
| `ThreadPool.HitsClosedForm` | src/net/EventLoopThreadPool.cpp:33-44 | The exact number each loop gets |
| `ThreadPool.NameInjective` | src/net/TcpServer.cpp:53-58 | Different connection numbers give different names |
| `ThreadPool.NamesDistinctIff` | src/net/TcpServer.cpp:53-58 | All names of a server are different if and only if its ip:port text is at most 51 characters, because of the 64-byte buffer |

## Left out

- System calls themselves, sockets, `Acceptor`, `InetAddress`: thin wrappers, kept only as steps with
  their possible results.
- `TimerQueue`, `Timer`: only the header is there, with no implementation to model.
- `ThreadPool`, `Thread`, `EventLoopThread`, `CurrentThread`: only easy claims.
- `LogFile`, `FileUtil`, `Logging`, `Timestamp`: file names, stdio and wall clock; the log file is an
  append-only byte sequence.
- `~TcpServer`, and functors bound to a raw `this` by an off-thread `send` or `shutdown`: they need
  assumptions about how long the caller keeps the object. The server and the callees are live.
- `EventLoop::quit` (src/net/EventLoop.cpp:80-86) and every claim about time or about a scheduler
  being fair: safety and termination of a batch only.
- `Buffer::findCRLF` has no return statement; `retrieveUntil` is `retrieve` after a subtraction;
  `writeFd` is the write step of `HandleWrite`.
- Floating-point printing, log-level macros and the bodies of user callbacks.
- `handleError` only logs, so EPOLLERR has no effect on the state and is not among the modelled events.
- Memory exhaustion: allocation always succeeds.
- EventLoop.EventLoop.DoPendingFunctors: a call of queueInLoop that arrives meanwhile runs to its end;
  LoopSpec interleaves its two halves with everything else.
- EventLoop.EventLoop.LoopOnce: as for DoPendingFunctors.
- EventLoop.EventLoop.RunFunctor: as for DoPendingFunctors.
- ConnectionSpec.SilentAfterHalfClose: holds for kernels that refuse writes after the half-close, which
  is what the system call promises; the library itself does not stop a send then.
- ConnectionSpec.HalfClosedIsDrained: as for SilentAfterHalfClose.
- ThreadPool.EventLoopThreadPool.Start: the started loops are given; thread names and the init callback
  are not modelled.
- TcpServer.TcpServer.NewConnection: sets no user callbacks on the connection and does not ask the kernel
  for its local address.
