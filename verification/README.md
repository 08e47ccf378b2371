# A verified model of the reactor network library

The library runs one event loop per thread.  A loop polls file descriptors, dispatches their
events to channels, runs timers, and drains a queue of tasks other threads hand it.  On top of it
a TCP server accepts connections on one loop and spreads them over a pool of I/O loops; each
connection buffers its output and follows `kConnecting -> kConnected -> kDisconnecting ->
kDisconnected`.  This project models the parts whose correctness depends on several functions or
threads at once, and proves what they keep over every run.

Each component has the same three layers: a value with step functions that follow the source
branch by branch, invariants and theorems over every run of those steps, and classes with the
source's fields whose methods are proved equal to the step functions and keep the invariant in
their `Valid()`.  The conditions the code asserts are the `...Asserts` predicates.  A run of the
server system goes up to the first assertion that fails, so its invariants hold of everything the
program can reach, with startRead, stopRead and ~TcpServer used freely.  In each of those states
`Assertions.AssertionFailsExactly` says which steps fail an assertion; calm runs, which use none of
the three calls and meet no report that closes twice, are proved never to fail one.

| file | component |
|---|---|
| `Connection.dfy`, `TcpConnection.dfy` | one connection: state, channel mask and poller index, output buffer, histories of the wire |
| `Server.dfy`, `TcpServer.dfy` | the server with its connection map, the FIFO task queues of all loops and the calls of other threads in flight, as one step system |
| `LifeSteps.dfy`, `Lifecycle.dfy`, `Assertions.dfy`, `Destruction.dfy` | the life cycle of connections over every interleaving, which steps fail an assertion, and ~TcpServer |
| `Effects.dfy`, `Messages.dfy` | what each step does in the fields of its connection, and the way of a message from send to sendInLoop |
| `OutputPath.dfy`, `HalfClose.dfy` | bytes, write interest, notifications, and what SHUT_WR promises |
| `EventLoop.dfy` | task queue, quit flag and eventfd under every interleaving of threads |
| `Timers.dfy`, `TimerProofs.dfy`, `TimerQueue.dfy` | the timer queue; a callback is any finite script of adds, cancels and clock ticks |
| `Pollers.dfy`, `PollerClasses.dfy`, `ChannelIndex.dfy` | PollPoller and EPollPoller against one map from descriptor to interest |
| `Buffer.dfy`, `BufferRuns.dfy`, `NetworkOrder.dfy` | the byte buffer in its array, its memory bound, integers in network byte order (Appendix B of RFC 791) |
| `BoundedBlockingQueue.dfy` | the two-condition monitor |
| `Bytes.dfy` | bytes, `Option` and small helpers |

The environment is nondeterministic and enters as event parameters: what `write(2)` and
`readv(2)` return, which descriptors are reported and with which events, which thread moves next,
which sleeper a condition variable wakes, when the clock ticks.  The hypotheses are:

- the check-then-set of `state_` in `shutdown` and `forceClose` is one step; the push that follows
  it on another thread is a later step, and so is the push that follows the test in `send`;
- the kernel reports only channels in its interest set and never writes more than it was given.
  A channel that one poll collected may have lost its interest when its turn comes, because a
  callback of another channel stopped its reading, but it is not closed by then: a connection is
  closed only by its own handlers or by a task, and tasks run after all handlers;
- user callbacks are separate steps after the handler that calls them, and users reach a
  connection only after it was established;
- while ~TcpServer drops its connections, the base loop does nothing else;
- there is one monotone clock with positive readings, and no timer address is ever used twice in
  a run.

Properties that are false of the code come as theorems that say exactly when they hold, each with
a reachable failing input beside it:

| exact condition | failing input |
|---|---|
| `Assertions.AssertionFailsExactly`: which steps of any run fail an assertion | `Assertions.LateStopReadFails`, `Assertions.LateStartReadFails` |
| `Assertions.ReaddedExactly`: which steps put a closed connection back on the poller | `Assertions.LateStopReadFails` |
| `Lifecycle.DispatchSafeExactly`: which reports close a connection twice | `Lifecycle.DoubleCloseReachable` | mymuduo_net/Channel.c++:47-59 | such a report, HUP with PRI, on the first accepted connection, which fails |
| `Destruction.DestructionSafeExactly`, `Destruction.DropSafeExactly`, `Destruction.DestroyRunsExactly`: when ~TcpServer is safe | `Destruction.DisconnectingReachable` |
| `OutputPath.CloseUnwatchesExactly`: where the close itself leaves the channel when startRead and stopRead were used before | `OutputPath.StopReadBreaksClose` |
| `HalfClose.FinIsFinalExactly`: when a write can follow SHUT_WR | `HalfClose.ForeignShutdownOvertakesSend` |
| `EventLoops.StrandedExactly`: when the loop blocks on work unsignalled | `EventLoops.EarlyPushStrands` |
| `EventLoops.QuitKeptExactly`: when a quit is kept | `EventLoops.EarlyQuitIsLost` |
| `Pollers.PollUpdateSafeExactly`: re-registration after removal | `Pollers.StaleIndexBreaks` |
| `Pollers.WatchedEquallyExactly`: where the two pollers watch different descriptors | `Pollers.DisablingTwiceSeparates` |
| `BlockingQueue.NoMutualSleep`: capacity at least one | `BlockingQueue.MutualSleepAtZero` |

The comment above `readInt64` asks for four readable bytes where the assertion it reaches asks for
eight; the model follows the code.

## Model

| member | source | states |
|---|---|---|
| `Lifecycle.ConnectionLifecycle` | mymuduo_net/TcpServer.c++:65-109 | up to the first failed assertion of any run at all, each connection was established at most once, closed at most once after that, erased at most once after that, destroyed at most once after the erase or by ~TcpServer; it is in `connections_` exactly until then, and while open it is watched exactly as its mask asks |
| `Lifecycle.CalmLifecycle` | mymuduo_net/TcpConnection.c++:289-311 | in calm runs the kernel watches a connection exactly between establishment and close, its mask is empty once closed, and it leaves the poller exactly at its destroy, which follows its erase |
| `Lifecycle.NoAssertionFails` | mymuduo_net/TcpConnection.c++:289-311 | whatever the environment does short of startRead, stopRead, ~TcpServer and a report that closes twice, no assertion of connectEstablished, handleClose, removeConnectionInLoop, updateChannel, removeChannel or ~TcpConnection ever fails |
| `Assertions.AssertionFailsExactly` | mymuduo_net/TcpConnection.c++:289-311 | after any run with startRead, stopRead and ~TcpServer used freely, a step passes every assertion if and only if: a report that closes finds its connection open and the server alive and does not close it twice; a remove task, or a forced close of an open connection, finds the server alive; a destroy task finds kConnected, or kDisconnected without read interest; a drop on the base loop finds kConnected |
| `Assertions.AliveDestroyExactly` | mymuduo_net/TcpConnection.c++:300-311 | while the server lives a destroy task always finds kDisconnected, and passes if and only if the channel is not reading |
| `Assertions.ReaddedExactly` | mymuduo_net/TcpConnection.c++:259-287 | after any run, a step puts a closed connection back on the poller if and only if it runs startReadInLoop or stopReadInLoop on it past that function's own test |
| `Assertions.LateStopReadFails` | mymuduo_net/TcpConnection.c++:274-287 | accept, forceClose, a foreign stopRead and their tasks: the close takes a reading connection off the poller, the queued stopRead puts it back, and the next hangup fails |
| `Assertions.LateStartReadFails` | mymuduo_net/TcpConnection.c++:259-272 | the same with startRead: the destroy task fails removeChannel's assertion |
| `Lifecycle.DestroyedOnlyAfterErase` | mymuduo_net/TcpServer.c++:98-109 | in calm runs a destroy task finds its connection already erased, not yet destroyed, kDisconnected and with an empty mask |
| `Lifecycle.RunKeepsInv` | mymuduo_net/TcpServer.c++:65-109 | the account of in-flight establish, remove and destroy tasks of every connection holds after every run that failed no assertion |
| `Lifecycle.StepExtends` | mymuduo_net/EventLoop.c++:197-230 | a step takes at most the head of a queue and otherwise only appends to it |
| `Effects.ReportMeans` | mymuduo_net/Channel.c++:45-64 | a report on an open connection closes it, with nothing written, if and only if it is HUP without IN, or IN, PRI or RDHUP whose read met end of file; otherwise exactly the bytes the kernel took of an OUT report move to the wire, a drain while kDisconnecting issues SHUT_WR, and the state stays; no other connection changes |
| `Effects.QueuedSendMeans` | mymuduo_net/TcpConnection.c++:94-98 | running a queued send extends what is written and buffered by exactly its message, unless kDisconnected or a direct fault, and writes at once exactly when nothing is buffered |
| `Effects.SendMeans` | mymuduo_net/TcpConnection.c++:84-102 | send does nothing unless kConnected; on the loop thread it does the same at once, and on another thread its message is on its way to the queue |
| `Effects.PushMeans` | mymuduo_net/EventLoop.c++:197-208 | the push of another thread puts its task last in the queue of the connection's loop |
| `Effects.ShutdownMeans` | mymuduo_net/TcpConnection.c++:184-203 | shutdown does nothing unless kConnected; it sets kDisconnecting, and on the loop thread issues SHUT_WR exactly if nothing is buffered, on another thread sends its task on its way |
| `Effects.QueuedShutdownMeans` | mymuduo_net/TcpConnection.c++:195-203 | running a queued shutdown of an open connection issues SHUT_WR exactly if nothing is buffered |
| `Effects.ForceCloseMeans` | mymuduo_net/TcpConnection.c++:205-213 | on kConnected and on kDisconnecting forceClose sets kDisconnecting and queues the close, or sends it on its way; otherwise it does nothing |
| `Effects.QueuedForceCloseMeans` | mymuduo_net/TcpConnection.c++:227-235 | running it closes an open connection, with nothing written, and leaves any other as it is |
| `Effects.EstablishMeans` | mymuduo_net/TcpConnection.c++:289-298 | an establish task finds kConnecting and leaves kConnected, reading and watched |
| `Effects.DestroyMeans` | mymuduo_net/TcpConnection.c++:300-311 | a destroy task that passes leaves the connection kDisconnected, maskless and out of the poller, with no byte lost |
| `Effects.QueuedReadMeans` | mymuduo_net/TcpConnection.c++:264-287 | running a queued startRead or stopRead sets both read flags accordingly and nothing of the output |
| `Effects.ReadMeans` | mymuduo_net/TcpConnection.c++:259-277 | startRead and stopRead do that at once on the loop thread and are queued last by another |
| `Messages.MessagesAccounted` | mymuduo_net/TcpConnection.c++:84-102 | over every run and for every caller, the messages that passed the test of send are those handed to sendInLoop, then those queued, then the one in flight, each once and in order; and those handed over are what sendInLoop logged, in order |
| `LifeSteps.StepGood` | mymuduo_net/TcpConnection.c++:205-235 | every step that passes its assertions keeps that account, and keeps the stronger one of quiet runs unless it switches reading |
| `LifeSteps.ReportGood` | mymuduo_net/Channel.c++:45-64 | the dispatch order close, read, write keeps every connection's account |
| `Lifecycle.DispatchSafeExactly` | mymuduo_net/Channel.c++:45-64 | after a calm run a report passes the assertions of the handlers if and only if it is not HUP without IN together with PRI or RDHUP and an end of file |
| `Lifecycle.DoubleCloseReachable` | mymuduo_net/Channel.c++:47-59 | such a report on the first accepted connection, which fails |
| `Destruction.DropSafeExactly` | mymuduo_net/TcpServer.c++:38-44 | after any run, connectDestroyed sent at once on the base loop passes its assertions and satisfies ~TcpConnection if and only if the connection is kConnected |
| `Destruction.DestroyRunsExactly` | mymuduo_net/TcpServer.c++:42-43 | on a pool loop the queued connectDestroyed never meets kConnecting, because the establish task stands before it, and passes if and only if it does not meet kDisconnecting |
| `Destruction.DestructionSafeExactly` | mymuduo_net/TcpServer.c++:33-45 | after a calm run, once ~TcpServer begins the loops and the kernel can fail an assertion or call into the dead server if and only if some connection in the map is on a pool loop or not kConnected |
| `Destruction.DisconnectingReachable` | mymuduo_net/TcpServer.c++:33-45 | accept, shutdown, ~TcpServer: a run that fails |
| `Lifecycle.ConnectionsGoRoundRobin` | mymuduo_net/EventLoopThreadPool.c++:47-64 | after every run the k-th connection lives on loop ((k-1) mod n)+1 of the pool, or on the base loop when the pool is empty |
| `Lifecycle.NextModulo` | mymuduo_net/EventLoopThreadPool.c++:53-62 | the cursor that wraps by comparison is the modulus |
| `TcpServers.TcpServer.GetNextLoop` | mymuduo_net/EventLoopThreadPool.c++:47-64 | returns the loop the modulus gives the next connection and leaves the cursor where the one after it finds its own |
| `TcpServers.TcpServer.NewConnection` | mymuduo_net/TcpServer.c++:65-90 | keeps the life-cycle invariant; the id is new and in the map, the loop is that of its turn, and the connection is established at once exactly on the base loop, or has its establish task last in its loop's queue |
| `TcpServers.TcpServer.RemoveConnectionInLoop` | mymuduo_net/TcpServer.c++:98-109 | keeps the invariant; the entry was there and is gone, the connection is closed and kDisconnected, its destroy task is queued on its loop and no second remove task is left |
| `TcpServers.TcpServer.CloseConnection` | mymuduo_net/TcpConnection.c++:374-387 | keeps the invariant; closed for the first time, and either erased with a destroy task (base loop) or left in the map with a remove task |
| `TcpServers.TcpServer.Destroy` | mymuduo_net/TcpServer.c++:33-45 | with the base loop's connections kConnected, keeps the invariant and empties the map; those are kDisconnected and out of the poller, the others unchanged, and connections outside the map untouched |
| `OutputPath.ByteConservation` | mymuduo_net/TcpConnection.c++:130-182 | in every reachable state the bytes the socket took followed by the output buffer are the concatenation, in call order, of all sendInLoop messages not dropped by kDisconnected or a fault (which messages those are, `Messages.MessagesAccounted` says) |
| `OutputPath.WriteInterest` | mymuduo_net/TcpConnection.c++:334-372 | in every reachable state before the close, write interest is on exactly when the output buffer is nonempty |
| `OutputPath.HighWaterNotifications` | mymuduo_net/TcpConnection.c++:167-181 | notifications queued equal the upward crossings of the mark by the buffer length over the run, and between two of them the length falls from the mark or above to below it |
| `OutputPath.FlushBeforeFin` | mymuduo_net/TcpConnection.c++:184-203 | when all sends and shutdowns of a connection are on its loop thread, SHUT_WR is issued only with every undropped byte on the wire, and no write(2) follows it |
| `OutputPath.CloseUnwatchesExactly` | mymuduo_net/TcpConnection.c++:374-387 | with startRead and stopRead anywhere in the run, an open connection is watched if and only if it reads or writes, and the close itself leaves the kernel watching it if and only if it neither read nor had output left |
| `OutputPath.ReportAfterCloseFails` | mymuduo_net/TcpConnection.c++:374-387 | a hangup on a connection still watched after its close fails handleClose's assertion |
| `OutputPath.StopReadBreaksClose` | mymuduo_net/EPollPoller.c++:90-106 | accept, stopRead, forceClose and its task reach such a connection |
| `OutputPath.CloseKeepsOutput` | mymuduo_net/TcpConnection.c++:300-311 | close, destroy and shutdownInLoop keep conservation, write interest and the notification count |
| `HalfClose.FinIsFinalExactly` | mymuduo_net/TcpConnection.c++:84-102 | after a calm run that issued SHUT_WR with an empty buffer, no continuation writes again if and only if every queued send of the connection stands behind a forced close of it and, if a sender has passed its test and not yet queued its message, such a forced close is queued |
| `HalfClose.RunStaysFinished` | mymuduo_net/TcpConnection.c++:136-139 | a connection that is closed, or half-closed under that condition, writes nothing in any continuation of any kind |
| `HalfClose.LateWriteWitness` | mymuduo_net/TcpConnection.c++:94-98 | a send queued behind SHUT_WR and not behind a forced close can reach write(2) |
| `HalfClose.InflightWrites` | mymuduo_net/TcpConnection.c++:86-98 | a sender that passed its test before SHUT_WR can queue its message after it and make a late write |
| `HalfClose.ForeignShutdownOvertakesSend` | mymuduo_net/TcpConnection.c++:184-193 | any busy connection can be driven by a foreign send, a foreign shutdown and one write event to SHUT_WR ahead of the queued send |
| `HalfClose.BusyReachable` | mymuduo_net/TcpConnection.c++:141-181 | a run that reaches such a busy connection |
| `Connection.SendKeepsOutput` | mymuduo_net/TcpConnection.c++:130-182 | sendInLoop keeps conservation, write interest and the notification count for every kernel answer |
| `Connection.SendConserves` | mymuduo_net/TcpConnection.c++:130-182 | sendInLoop keeps wire + buffer equal to the undropped messages, partial direct writes included |
| `Connection.SendInterest` | mymuduo_net/TcpConnection.c++:177-180 | sendInLoop keeps write interest equal to having buffered bytes |
| `Connection.SendCounted` | mymuduo_net/TcpConnection.c++:169-175 | sendInLoop counts one notification exactly when the buffer length crosses the mark |
| `Connection.SendNotifies` | mymuduo_net/TcpConnection.c++:169-175 | sendInLoop notifies once if the mark is set, the buffer was shorter than the mark and is not any more, and otherwise not at all |
| `Connection.WriteNotifiesNot` | mymuduo_net/TcpConnection.c++:334-372 | handleWrite notifies nobody |
| `Connection.WriteKeepsOutput` | mymuduo_net/TcpConnection.c++:334-372 | handleWrite keeps conservation, write interest and the notification count for every kernel answer |
| `TcpConnections.TcpConnection.TryToWrite` | mymuduo_net/TcpConnection.c++:136-164 | the direct write: how many bytes left the message, and whether a fault drops it |
| `TcpConnections.TcpConnection.BufferRest` | mymuduo_net/TcpConnection.c++:167-181 | what is left is appended to the real buffer, with one notification exactly if the length went from below the mark to the mark or above, and the switch to write interest |
| `TcpConnections.TcpConnection.SendInLoop` | mymuduo_net/TcpConnection.c++:130-182 | keeps the connection's invariant over the real buffer; the message joins the stream of written and buffered bytes at its end, or is dropped whole exactly when kDisconnected or on a direct fault; with nothing buffered the bytes the kernel takes go out at once; and it notifies exactly on reaching the mark from below |
| `TcpConnections.TcpConnection.ShutdownInLoop` | mymuduo_net/TcpConnection.c++:195-203 | keeps the invariant; before the close, SHUT_WR is issued exactly when the buffer is empty, and then every undropped byte is on the wire |
| `TcpConnections.TcpConnection.HandleWrite` | mymuduo_net/TcpConnection.c++:334-372 | keeps the invariant and the state; bytes only move from the real buffer to the wire |
| `TcpConnections.TcpConnection.HandleClose` | mymuduo_net/TcpConnection.c++:374-387 | keeps the invariant; kDisconnected with an empty mask, off the poller exactly if it was reading or had output, wire and buffer unchanged |
| `TcpConnections.TcpConnection.ConnectEstablished` | mymuduo_net/TcpConnection.c++:289-298 | keeps the invariant; kConnected and watched for reading, nothing written or buffered |
| `TcpConnections.TcpConnection.StopReadInLoop` | mymuduo_net/TcpConnection.c++:279-287 | keeps the invariant; no read interest, and while open watched exactly if output is left |
| `TcpConnections.TcpConnection.StartReadInLoop` | mymuduo_net/TcpConnection.c++:264-272 | keeps the invariant; read interest, and while open watched |
| `TcpConnections.TcpConnection.ConnectDestroyed` | mymuduo_net/TcpConnection.c++:300-311 | keeps the invariant; kDisconnected, maskless, out of the poller, and no byte lost |
| `TcpConnections.IndexMirrorsEPoll` | mymuduo_net/EPollPoller.c++:85-126 | the poller index a connection carries follows EPollPoller's marks through every update, so the kernel watches the connection exactly while it is kAdded |
| `EventLoops.NoLostWakeup` | mymuduo_net/EventLoop.c++:96-128 | over every interleaving, a loop about to block with a pending task that was not queued by its own thread outside loop(), or with a quit stored since its entry, has a readable eventfd or a thread that still owes it a write |
| `EventLoops.StepKeepsWake` | mymuduo_net/EventLoop.c++:154-208 | every atomic action of every thread keeps the wakeup invariant |
| `EventLoops.WakeupsConserved` | mymuduo_net/EventLoop.c++:154-184 | every call that is to end in a wakeup is still in flight, counted in the eventfd, or was read from it |
| `EventLoops.PollMeans` | mymuduo_net/EventLoop.c++:104-121 | a poll that reports the eventfd makes its handler due, one that does not does not, and neither reads it |
| `EventLoops.DrainMeans` | mymuduo_net/EventLoop.c++:163-171 | while that handler is due it can run, functors cannot be started, and it leaves the eventfd empty with its count read |
| `EventLoops.WokenPollIsRead` | mymuduo_net/EventLoop.c++:108-124 | after a poll that reported the eventfd, a read of it comes before functors are next run, and all that it held at the poll has then been read |
| `EventLoops.UnwokenReadsNothing` | mymuduo_net/EventLoop.c++:108-124 | after a poll that did not report it, nothing is read until the next poll |
| `EventLoops.IterationRunsAll` | mymuduo_net/EventLoop.c++:104-125 | whatever was queued while the loop handled its events has been executed when it next tests quit_, polls, or has left loop() |
| `EventLoops.StrandedExactly` | mymuduo_net/EventLoop.c++:154-208 | a loop about to block is unsignalled if and only if every push and quit of another thread was followed by its wakeup and the last wakeup by a read of the eventfd, and then all pending work was queued by the loop thread outside loop() |
| `EventLoops.EarlyPushStrands` | mymuduo_net/EventLoop.c++:197-208 | queueInLoop on the loop thread and then loop() reaches that, from any reachable state outside loop() whose wakeups were all read |
| `EventLoops.QuitKeptExactly` | mymuduo_net/EventLoop.c++:96-104 | quit_ is set if and only if some quit of the run has no entry to loop() after it |
| `EventLoops.QuitEndsPolling` | mymuduo_net/EventLoop.c++:104-128 | a kept quit lets no further poll begin until loop() is entered again |
| `EventLoops.EarlyQuitIsLost` | mymuduo_net/EventLoop.c++:96-104 | from every reachable state outside loop(), a quit stored before loop() is forgotten on entry |
| `EventLoops.TasksRunOnceInOrder` | mymuduo_net/EventLoop.c++:197-230 | executed tasks, then the rest of the batch, then pendingFunctors_, are all tasks ever queued, in lock order |
| `EventLoops.StepKeepsHistory` | mymuduo_net/EventLoop.c++:215-230 | every atomic action keeps that history and the per-thread order |
| `EventLoops.ThreadOrder` | mymuduo_net/TimerQueue.c++:102-123 | two tasks of one thread run in the order it queued them, so an add precedes its cancel |
| `EventLoops.BatchRuns` | mymuduo_net/EventLoop.c++:225-228 | after k functors of a batch exactly its first k tasks were executed, in order, whatever they and other threads did meanwhile |
| `EventLoops.EventLoop.QueueInLoop` | mymuduo_net/EventLoop.c++:197-208 | keeps both invariants; whatever other threads do between the push and the wakeup, the task stands behind all that was pending, and by the return the eventfd was written exactly for other threads and for the loop thread while it calls functors |
| `EventLoops.EventLoop.Quit` | mymuduo_net/EventLoop.c++:174-184 | keeps both invariants; whatever other threads do between the store and the wakeup, the flag is set, and another thread's call has written the eventfd |
| `EventLoops.EventLoop.DoPendingFunctors` | mymuduo_net/EventLoop.c++:215-230 | keeps both invariants; runs everything pending on entry, then what other threads queued before the swap, in order, and nothing else, whatever functors and other threads do meanwhile |
| `TimerProofs.IndexesAgree` | mymuduo_net/TimerQueue.c++:138-247 | after every run `timers_` and `activeTimers_` hold the same timers and each key is its timer's current expiration |
| `TimerProofs.SizesAgree` | mymuduo_net/TimerQueue.c++:138-157 | the two sets are then of one size, which insert asserts on entry and exit |
| `TimerProofs.CancelIsFinal` | mymuduo_net/TimerQueue.c++:160-175 | after cancelInLoop an inserted timer fires only as often as it still stands ahead in the batch then running, which is at most once and not at all if it already fired in that pass, and never after the pass; so a timer that cancels itself never fires again |
| `TimerProofs.CancelKills` | mymuduo_net/TimerQueue.c++:160-175 | a cancel takes the timer out of both indexes or marks it so that reset will not reinsert it |
| `TimerProofs.PassRunsExactlyTheDue` | mymuduo_net/TimerQueue.c++:176-247 | whatever the callbacks do, a pass fires exactly the entries due when it began, once each, in nondecreasing order and by address among equals |
| `TimerProofs.NoTimerMissed` | mymuduo_net/TimerQueue.c++:217-225 | outside a pass the timerfd is readable or armed no later than max(earliest expiration, arming time + 100us) |
| `TimerProofs.ArmingNeverDisarms` | mymuduo_net/TimerQueue.c++:29-43 | the timespec is normalised, never zero, and denotes max(delay, 100us) |
| `TimerProofs.OneShotFiresAtMostOnce` | mymuduo_net/TimerQueue.c++:198-215 | over a whole run a one-shot timer fires at most once |
| `TimerProofs.RepeatingIsRescheduled` | mymuduo_net/TimerQueue.c++:198-215 | outside a pass an uncancelled repeating timer is scheduled, having been inserted once by its add and once per firing |
| `TimerProofs.ResetReschedules` | mymuduo_net/TimerQueue.c++:198-215 | reset puts back exactly the repeating uncancelled timers of the batch, at pass time plus interval |
| `TimerProofs.StepKeepsInv` | mymuduo_net/TimerQueue.c++:128-247 | every step keeps index agreement, timerfd coverage and the firing account |
| `TimerProofs.AddMeans` | mymuduo_net/TimerQueue.c++:128-157 | a new timer joins both sets and arms the timerfd, for the larger of its delay and 100us, exactly if it expires before every other |
| `TimerProofs.CancelMeans` | mymuduo_net/TimerQueue.c++:160-175 | a scheduled timer leaves both sets, an unscheduled one is remembered exactly while callbacks run, and nothing else changes |
| `TimerProofs.BeginMeans` | mymuduo_net/TimerQueue.c++:229-237 | a pass reads the timerfd, forgets earlier cancellations, and takes exactly the due timers out of both sets |
| `TimerProofs.EndMeans` | mymuduo_net/TimerQueue.c++:217-225 | a pass ends by arming the timerfd for the earliest timer exactly if there is one with a valid expiration |
| `TimerQueues.TimerQueue.InsertTimer` | mymuduo_net/TimerQueue.c++:138-157 | both sets gain the timer, keep one size and order, and the result says whether it became the earliest |
| `TimerQueues.TimerQueue.AddTimerInLoop` | mymuduo_net/TimerQueue.c++:128-136 | the whole new state, rearmed exactly when the earliest changed |
| `TimerQueues.TimerQueue.CancelInLoop` | mymuduo_net/TimerQueue.c++:160-175 | the whole new state: erased from both sets, or remembered while callbacks run, or nothing |
| `TimerQueues.TimerQueue.GetExpired` | mymuduo_net/TimerQueue.c++:176-196 | returns exactly the due entries in order and takes them out of both sets |
| `TimerQueues.TimerQueue.Restart` | mymuduo_net/Timer.c++:8-18 | the expiration moves to now plus interval, or becomes invalid |
| `TimerQueues.TimerQueue.Reinsert` | mymuduo_net/TimerQueue.c++:202-215 | the loop's one-by-one restarts and inserts equal reinserting the whole batch at once |
| `TimerQueues.TimerQueue.Reset` | mymuduo_net/TimerQueue.c++:198-226 | the whole new state after the pass, rearmed for the earliest entry |
| `TimerQueues.TimerQueue.HandleRead` | mymuduo_net/TimerQueue.c++:229-247 | for any callback scripts the method is the legal run begin, callbacks, end of the step system |
| `Pollers.PollersRefineOneMap` | mymuduo_net/PollPoller.c++:68-120 | after every legal call sequence both pollers hold the same map from descriptor to mask, PollPoller's index is a bijection, and every epoll_ctl was acceptable to the kernel |
| `Pollers.PollUpdateKeeps` | mymuduo_net/PollPoller.c++:68-97 | updateChannel keeps the bijection and sets exactly one entry of the map |
| `Pollers.PollRemoveKeeps` | mymuduo_net/PollPoller.c++:99-120 | swap-with-last removal keeps the bijection and removes exactly one entry |
| `Pollers.RepairFindsChannel` | mymuduo_net/PollPoller.c++:111-117 | the channel whose index the removal repairs is still registered |
| `Pollers.PollUpdateSafeExactly` | mymuduo_net/PollPoller.c++:71-96 | updateChannel keeps the bijection if and only if the channel is new with index -1 or registered under its index |
| `Pollers.StaleIndexBreaks` | mymuduo_net/PollPoller.c++:99-120 | a legal run that leaves a removed channel whose next update writes to no slot or to another channel's |
| `Pollers.EPollUpdateKeeps` | mymuduo_net/EPollPoller.c++:85-126 | the kernel set stays exactly the kAdded channels with their masks, and ADD, MOD, DEL meet absent, present, present descriptors |
| `Pollers.EPollRemoveKeeps` | mymuduo_net/EPollPoller.c++:128-146 | the same for removal |
| `Pollers.WatchedEquallyExactly` | mymuduo_net/EPollPoller.c++:90-106 | one call keeps the reportable descriptors of both pollers equal if and only if it is not a zero mask again on a channel a zero mask already took off |
| `Pollers.DisablingTwiceSeparates` | mymuduo_net/EPollPoller.c++:116-124 | a legal run of such calls after which the pollers watch different descriptors |
| `PollerClasses.PollPoller.UpdateChannel` | mymuduo_net/PollPoller.c++:68-97 | for any channel whose index the vector can take: a new slot is appended or the channel's slot rewritten, with -fd-1 for an empty mask, and afterwards the bijection holds if and only if the channel was new or registered under its index |
| `PollerClasses.PollPoller.RemoveChannel` | mymuduo_net/PollPoller.c++:99-120 | the last slot moves into the removed one's place and the vector shrinks by one, the bijection is kept, and the removed channel keeps its index |
| `PollerClasses.PollPoller.FillActiveChannels` | mymuduo_net/PollPoller.c++:21-38 | returns the registered channels of exactly the marked slots in slot order, each holding its slot's revents, although the scan stops early |
| `PollerClasses.EPollPoller.UpdateChannel` | mymuduo_net/EPollPoller.c++:85-126 | keeps the kernel mirror; the channel becomes kDeleted exactly from kAdded with an empty mask and kAdded otherwise, and the kernel watches it with its mask exactly while kAdded |
| `PollerClasses.EPollPoller.RemoveChannel` | mymuduo_net/EPollPoller.c++:128-146 | the method is the modelled removal and returns the channel to kNew |
| `PollerClasses.EPollPoller.Control` | mymuduo_net/EPollPoller.c++:148-166 | afterwards the descriptor is watched with the mask, or not at all after DEL; no other is touched; and the history stays good exactly if ADD met an absent and MOD or DEL a present descriptor |
| `Buffers.Buffer.constructor` | include/muduo/net/Buffer.h:37-45 | empty, with eight prependable bytes |
| `Buffers.Buffer.ReadableBytes` | include/muduo/net/Buffer.h:57-58 | the length of the contents |
| `Buffers.Buffer.Retrieve` | include/muduo/net/Buffer.h:102-113 | drops exactly the first bytes, and regains the prepend space when it empties the buffer |
| `Buffers.Buffer.RetrieveAll` | include/muduo/net/Buffer.h:142-146 | empties the buffer and regains the prepend space |
| `Buffers.Buffer.RetrieveAsString` | include/muduo/net/Buffer.h:153-159 | result followed by the rest is the earlier contents |
| `Buffers.Buffer.MoveDown` | include/muduo/net/Buffer.h:391-393 | the forward copy moves its range intact although source and target overlap |
| `Buffers.Buffer.MakeSpace` | include/muduo/net/Buffer.h:379-398 | keeps the contents; the vector grows, to the asked size behind the writer, exactly when moving the contents would not make the space; the internal assertion holds |
| `Buffers.Buffer.EnsureWritableBytes` | include/muduo/net/Buffer.h:183-190 | at least the asked space, same contents, and nothing moves if the space was there |
| `Buffers.Buffer.Append` | include/muduo/net/Buffer.h:171-176 | contents followed by the data |
| `Buffers.Buffer.Unwrite` | include/muduo/net/Buffer.h:204-208 | drops exactly the last bytes |
| `Buffers.Buffer.Prepend` | include/muduo/net/Buffer.h:343-349 | data followed by the contents |
| `Buffers.Buffer.Shrink` | include/muduo/net/Buffer.h:351-358 | same contents in a fresh vector of 8 plus the larger of 1024 and the contents with the reserve |
| `Buffers.Buffer.ReadFd` | mymuduo_net/Buffer.c++:16-48 | appends exactly the delivered bytes in order across the two segments; an error changes nothing |
| `Buffers.Buffer.FindCRLF` | include/muduo/net/Buffer.h:69-74 | the first CRLF, or that there is none |
| `BufferRuns.NewBufferBound` | include/muduo/net/Buffer.h:171-190 | over any run of append, readFd, retrieve, unwrite and prepend the vector size is at most max(8 + initial size, 2 * peak readable + 7) |
| `BufferRuns.MemoryBound` | include/muduo/net/Buffer.h:379-398 | the same from any starting geometry |
| `BufferRuns.StepBound` | mymuduo_net/Buffer.c++:34-42 | one operation grows the vector at most to twice the bytes then readable plus seven |
| `BufferRuns.ReadBound` | mymuduo_net/Buffer.c++:18-29 | one read delivers at most what is writable, and 64k more, so at most 128k - 1 bytes, when less than 64k are writable |
| `BufferRuns.BoundIsTight` | include/muduo/net/Buffer.h:381-385 | the bound is reached |
| `NetworkOrder.RoundTrip` | include/muduo/net/Endian.h:22-50 | decoding the encoding of a signed integer of any width gives it back |
| `NetworkOrder.RoundTripBack` | include/muduo/net/Endian.h:22-50 | encoding what any bytes decode to gives the bytes back |
| `NetworkOrder.EncodeAt` | include/muduo/net/Endian.h:22-50 | byte i of the encoding in w bytes is digit w-1-i of the integer to the base 256: the most significant byte comes first |
| `NetworkOrder.DecodeFromFront` | include/muduo/net/Endian.h:22-50 | the first byte weighs most and carries the sign |
| `NetworkOrder.MixedWidthsReadBack` | include/muduo/net/Buffer.h:213-312 | any interleaving of mixed-width appends and matching reads returns the integers in order, and the bytes left are those of the integers left |
| `NetworkOrder.RunInts` | include/muduo/net/Buffer.h:213-312 | the same calls on one Buffer, through whatever compactions and growth they cause, give what they give on its bytes |
| `NetworkOrder.IntsReadBack` | include/muduo/net/Buffer.h:213-312 | hence the integers appended to a Buffer are read back unchanged and in order |
| `NetworkOrder.AppendInt` | include/muduo/net/Buffer.h:213-237 | the contents are followed by the digits of the integer to the base 256, most significant first |
| `NetworkOrder.PeekInt` | include/muduo/net/Buffer.h:279-312 | the integer of that width whose digits, most significant first, are the bytes at the front |
| `NetworkOrder.ReadInt` | include/muduo/net/Buffer.h:243-273 | that integer, and its bytes are dropped |
| `NetworkOrder.PrependInt` | include/muduo/net/Buffer.h:317-349 | the digits of the integer, most significant first, stand before the contents; reading them gives it back and uncovers the contents |
| `BlockingQueue.NothingStranded` | include/muduo/base/BoundedBlockingQueue.h:31-55 | for any threads and spurious wakeups: takes return puts in FIFO order, size within capacity, and while a taker (putter) sleeps every item (free slot) has a woken taker (putter) coming |
| `BlockingQueue.StepKeepsInv` | include/muduo/base/BoundedBlockingQueue.h:31-55 | every critical section and spurious wakeup keeps that invariant |
| `BlockingQueue.NoMutualSleep` | include/muduo/base/BoundedBlockingQueue.h:34-48 | with capacity at least one, takers and putters never all sleep with nobody woken |
| `BlockingQueue.MutualSleepAtZero` | include/muduo/base/BoundedBlockingQueue.h:23-28 | with capacity zero they do |
| `BlockingQueue.BoundedBlockingQueue.Put` | include/muduo/base/BoundedBlockingQueue.h:31-41 | keeps the monitor's invariant; with room the value is queued last and the signalled taker wakes, otherwise the thread sleeps with it |
| `BlockingQueue.BoundedBlockingQueue.ResumePut` | include/muduo/base/BoundedBlockingQueue.h:34-41 | the same for a thread back from its wait |
| `BlockingQueue.BoundedBlockingQueue.Take` | include/muduo/base/BoundedBlockingQueue.h:43-55 | keeps the monitor's invariant; returns the oldest value and leaves the rest, or sleeps exactly when empty |
| `BlockingQueue.BoundedBlockingQueue.ResumeTake` | include/muduo/base/BoundedBlockingQueue.h:46-55 | the same for a thread back from its wait |

## Left out

- The race inside the check-then-set of `state_` in shutdown and forceClose (the source's own FIXME) is one step here.
- Lifecycle.NoAssertionFails: calm runs exclude startRead, stopRead, ~TcpServer and reports that close twice, because the code breaks its own assertions there; `Assertions.AssertionFailsExactly` gives the exact condition, step by step, in every run that uses them.
- Lifecycle.NoAssertionFails: the assertions about threads (assertInLoopThread) and of EventLoop::removeChannel about the active channel list are not among those modelled.
- Destruction.DestructionSafeExactly: speaks of what the loops and the kernel do after the destructor begins, with no further calls by users.
- forceCloseWithDelay, writeCompleteCallback_, handleError and the contents of the input buffer in handleRead: they change nothing the theorems speak about.
- Mutation of the output buffer through `outputBuffer()` and replacing callbacks or the mark during a run.
- shared_ptr lifetimes and `Channel::tie`; a connection is named by its id, without the string name, its 64-byte truncation or `int` overflow of nextConnId_.
- The event mask of a connection is two bits, read and write; `TcpConnections.IndexMirrorsEPoll` ties them to the mask word the pollers see.
- TcpServers.TcpServer.NewConnection: connections are records of the server state rather than objects of class TcpConnection, so aliasing between the map and the loops' closures is not captured.
- The body of EventLoop::loop and EventLoop::handleRead are steps of the loop system, not methods.
- The eventfd is an unbounded counter, and a short read or write of it is not modelled.
- Timer intervals are integer microsecond deltas, without the floating-point conversion of Timestamp or overflow of 64-bit microseconds.
- Timer objects are never freed, so the model does not say what reuse of an address by a later timer would do.
- The sentry of getExpired is modelled by its role, a key above every timer address at time now.
- The order of `timers_` is a sorted sequence; the tree inside std::set is not modelled.
- EPollPoller::fillActiveChannels and the doubling of its event list: easy members that no theorem needs.
- Runs for the memory bound do not include direct calls of ensureWritableBytes and shrink, whose reserve the caller chooses freely.
- Buffer::swap, findEOL, internalCapacity, and the overloads of retrieve and append that only compute a length.
- NetworkOrder.AppendInt: widths 1, 2, 4 and 8 are instances of one width parameter.
- Sockets, Acceptor, logging, thread start and stop, getLoopForHash, dates and time zones.
