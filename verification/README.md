# HyCAN in Dafny

HyCAN lets ordinary Linux programs use CAN buses. A privileged daemon brings links up and down on behalf of its clients,
each of which talks to it over a Unix socket of its own; inside a client, a dispatcher thread reaps frames from a raw CAN
socket and runs the callbacks registered for them. This project models the concurrent cores of the daemon and of the
client library, and proves what they guarantee.

Two forms of model are used side by side.

* **Step systems** for what several threads do at once. Each access to state that two threads share is a step of its own;
  everything the program does not control (timeouts, failing system calls, the clock, process liveness, arriving frames)
  is a free choice of the step. Theorems quantify over every run.
* **Classes** for what one thread does to an object: methods with the program's loops, branches and early returns, each
  proved against its whole new state.

| file | what it models |
|---|---|
| `DaemonProtocol`, `DaemonInvariant`, `DaemonTheorems`, `DaemonActivity`, `DaemonShutdown` | accept loop, cleanup thread, workers and a caller of `stop()` over the session map, the session mutex, the running flags, thread handles and bound paths |
| `SessionRegistry`, `UnixSocket` | the critical sections on the session map and the socket object, as loops and methods that change the map and the `/run` namespace in place |
| `Netlink`, `NetlinkInterleaving`, `NetlinkManager` | one request as an atomic transition on kernel links and cache; any number of workers, one library call at a time, under the recursive mutex; the manager object |
| `Handshake`, `Message`, `Naming` | the two-stage handshake over byte streams, the truncating messages, the channel names |
| `Reaper`, `StopSignal`, `Dispatcher`, `CallbackTable` | reaper thread, eventfd, level-triggered epoll, receive queue and spin lock; which stops are seen; the dispatcher object; the spin-locked callback table |
| `CanSocket`, `Sender`, `Interface`, `CoreAssignment` | the reconnecting socket, sending with one resend, `up`/`down` end to end, core placement |

## What was found

* A registration that fails to create its thread leaves the session in the map. The next registration of that pid is
  answered with result 0 though nobody serves the channel. A result 0 is served if and only if the thread could be created.
* `stop()` called from a signal handler that interrupts the main thread inside a critical section returns if and only if the
  cleanup thread has not yet passed its test of `running_`; otherwise it deadlocks.
* `stop()` leaves its write in the eventfd, so of two runs in a row at most one begins with counter 0. A thread reads the
  counter as if it were a frame if and only if it was started with a positive counter.
* `register_func` with an id above 2047 returns with the spin lock taken: no registration or dispatch ever completes again.
* A `stop()` is lost as it writes if and only if the reaper is at that read of the eventfd, having found no stop
  requested, or is bound to dispatch a frame on a lock that a failed registration has kept, or that is with a
  registration which has an id above 2047 still to write.
* After a `stop()` that failed, the next `start()` can succeed with a thread that has already returned.
* A VCAN name whose existence probe fails is reported as an error even when the link exists.
* The destructor of a CAN socket on which no connection was attempted closes descriptor 0.
* A link whose name starts with `can` without being a CAN link (a VCAN link called can0, say) is never brought up by the
  daemon's answer to `up()`, and is left down unless the request failed before its bitrate step. Any other link that
  exists, and any missing VCAN link with another name, is brought up when no call fails.
* The core counter wraps at 256, so unless the number of processors divides 256 the loads of two cores drift apart by one
  for every 256 dispatchers.

## Model

| member | source | states |
|---|---|---|
| DaemonInvariant.StepKeepsInv | src/Daemon/Daemon.cpp:39-264 | every step of main, cleanup thread, any worker or stopper keeps the invariant: mutex holders, table, session objects, condemned flags, path bindings, cleanup pass, phases |
| DaemonInvariant.ReachableInv | src/Daemon/Daemon.cpp:39-264 | the invariant holds in every state any interleaving can reach |
| DaemonInvariant.EraseKeepsPaths | src/Daemon/UnixSocket/UnixSocket.cpp:212-226 | destroying one session unlinks its own path and leaves every other bound path with its owner |
| DaemonInvariant.RegKeepsPaths | src/Daemon/UnixSocket/UnixSocket.cpp:65-126 | no step of a registration, failed initialisation included, takes a path from a session in the map or from the daemon |
| DaemonTheorems.SessionLifetime | src/Daemon/Daemon.cpp:81-95 | a worker that has not returned runs on a session still in the map; no session is destroyed with a joinable thread or with a received request whose reply was not attempted; the map is empty and no worker is left when the destructor joins |
| DaemonTheorems.RegistrationSound | src/Daemon/Daemon.cpp:102-156 | while the daemon runs, a result-0 reply names a channel bound to that session's socket, and a live worker with running set serves it exactly when the session has a thread |
| DaemonTheorems.WorkerCreation | src/Daemon/Daemon.cpp:136-138 | a step leaves a session with a thread exactly when it had one or the step is its successful thread creation |
| DaemonTheorems.ServedIffSpawned | src/Daemon/Daemon.cpp:102-156 | over whole runs: a registration answered with result 0 while the daemon runs is served by a live worker if and only if the run created its session's thread |
| DaemonTheorems.PathOwnership | src/Daemon/Daemon.cpp:109-134 | every session in the map is bound to the path of its own channel, to that path alone and nobody else to it; the daemon keeps its own path |
| DaemonTheorems.StepsUnlinkNoLivePath | src/Daemon/UnixSocket/UnixSocket.cpp:81-110 | no step of any thread unbinds or rebinds the path of a session that stays in the map |
| DaemonTheorems.CleanupPassExact | src/Daemon/Daemon.cpp:221-246 | a finished pass, interleaved with workers renewing their activity, read each session once and removed exactly those dead or idle over five minutes when read |
| DaemonTheorems.ServesTheAccepted | src/Daemon/Daemon.cpp:61-67 | the registration in work, and its answer, is that of the pid in the last request the run accepted |
| DaemonTheorems.BindSucceeds | src/Daemon/UnixSocket/UnixSocket.cpp:81-99 | a registration's bind never meets a path that exists: it succeeds whenever the calls do, and the session then owns the path |
| DaemonActivity.ActivityIsLastRenewal | src/Daemon/Daemon.cpp:102-189 | over any run, a session's stored activity is the time of the last step that registered it, registered it again, or took up a whole request of its client |
| DaemonActivity.RenewalHolds | src/Daemon/Daemon.cpp:102-189 | on a clock that does not go back, a session renewed at a time has an activity no earlier than it from then on |
| DaemonActivity.ReceiptRenews | src/Daemon/Daemon.cpp:175-189 | so does one whose worker received a whole request at a time, as soon as that worker has taken one more step |
| DaemonActivity.OneTouchPerRequest | src/Daemon/Daemon.cpp:175-189 | in any run a worker renews its session once for each whole request it receives, and for nothing else it receives |
| DaemonActivity.PassKeeps | src/Daemon/Daemon.cpp:221-246 | a finished pass kept a session if and only if it read its process as alive and an activity at most 300 seconds before the pass took the lock |
| DaemonActivity.PassByRenewals | src/Daemon/Daemon.cpp:221-246 | in terms of the run, on such a clock: kept if renewed at most 300 seconds before the pass and read as alive; removed if read as dead, or if its last renewal by the end of the pass is longer ago |
| DaemonTheorems.ThreadlessSessionStays | src/Daemon/Daemon.cpp:132-147 | a run that leaves a session without a thread in the map |
| DaemonTheorems.ThreadlessSessionAnswered | src/Daemon/Daemon.cpp:106-155 | a run in which that session is then answered with result 0 and is not served |
| DaemonShutdown.BlockedIffWaiting | src/Daemon/Daemon.cpp:86-95 | a thread that has not finished can take no step exactly when it waits for another thread on a mutex, a worker join or the cleanup join |
| DaemonShutdown.NoCyclicWait | src/Daemon/Daemon.cpp:212-264 | every wait goes strictly down a fixed order of threads, so no set of threads waits in a circle |
| DaemonShutdown.DeadlockFree | src/Daemon/Daemon.cpp:39-264 | in every reachable state some thread can step until all have finished |
| DaemonShutdown.ShutdownStep | src/Daemon/Daemon.cpp:158-264 | once running_ is false, every step of every thread lowers one measure, which pays for the registration main may still finish and its worker |
| DaemonShutdown.ShutdownBounded | src/Daemon/Daemon.cpp:39-264 | no run after stop is longer than that measure |
| DaemonShutdown.ShutdownCompletes | src/Daemon/Daemon.cpp:81-95 | a run after stop that cannot go on has ended with every thread returned and an empty map |
| DaemonShutdown.StoppedWorkerReturns | src/Daemon/Daemon.cpp:162-207 | a worker whose session was told to stop takes at most nine more steps even while the daemon runs on, so the join of a cleanup pass returns |
| DaemonShutdown.HandlerInsideLock | src/Daemon/main.cpp:8-15 | stop() in a handler that interrupts main inside a critical section can return if and only if the cleanup thread has not passed its test of running_ |
| DaemonShutdown.HandlerDeadlockReachable | src/Daemon/main.cpp:8-15 | a run that ends in that deadlock |
| SessionRegistry.Registry.HandleClientRegistration | src/Daemon/Daemon.cpp:102-156 | the new map and namespace for a known pid, a new pid, a failed initialisation and a failed thread; every reply carries the pid's own channel name |
| SessionRegistry.Registry.CleanupPass | src/Daemon/Daemon.cpp:225-245 | the erase-while-iterating loop keeps exactly the sessions of live processes whose stored activity is at most 300 seconds old, unlinks exactly the paths of the others, and destroys each only stopped and joined |
| SessionRegistry.Registry.StopAll | src/Daemon/Daemon.cpp:254-261 | the new map is the old one with every session told to stop and joined, and nothing else changed |
| SessionRegistry.Registry.CleanupSessions | src/Daemon/Daemon.cpp:250-264 | the map is empty, every session was destroyed stopped and joined, and exactly their paths are unlinked |
| UnixSocket.Socket.constructor | src/Daemon/UnixSocket/UnixSocket.cpp:11-14 | an unconnected socket with its prefixed path |
| UnixSocket.Socket.Accepted | src/Daemon/UnixSocket/UnixSocket.cpp:16-19 | an accepted connection is a client socket, so it never unlinks the server's path |
| UnixSocket.Socket.Moved | src/Daemon/UnixSocket/UnixSocket.cpp:26-34 | moving hands over descriptor and path; the source unlinks nothing any more |
| UnixSocket.Socket.MoveAssign | src/Daemon/UnixSocket/UnixSocket.cpp:36-49 | the target's old path is unlinked, the source keeps neither descriptor nor path |
| UnixSocket.Socket.Close | src/Daemon/UnixSocket/UnixSocket.cpp:212-226 | a server unlinks its own path and no other; a client unlinks none |
| UnixSocket.Socket.Initialize | src/Daemon/UnixSocket/UnixSocket.cpp:65-126 | when it succeeds, and the namespace, descriptor and connected flag after success and each failure |
| UnixSocket.Socket.Accept | src/Daemon/UnixSocket/UnixSocket.cpp:128-159 | only a connected server accepts, and the new socket unlinks nothing |
| Naming.ChannelNamesDistinct | src/Daemon/Daemon.cpp:97-100 | channel names are injective over all 32-bit signed pids and never equal the daemon's name |
| Naming.ChannelNameLength | src/Daemon/Daemon.cpp:97-100 | every channel name has 14 to 24 characters |
| Naming.ChannelNameReadsBack | src/Daemon/Daemon.cpp:97-100 | every channel name is the prefix and the pid in decimal, which reads back as that pid |
| Naming.PathTextInjective | src/Daemon/UnixSocket/UnixSocket.cpp:51-63 | socket paths of different pids and of the daemon are different, and all pass the length test |
| Naming.PathTextSpec | src/Daemon/UnixSocket/UnixSocket.cpp:51-63 | the full paths, written out |
| Message.ChannelNameSurvives | include/HyCAN/Daemon/Message.hpp:41-55 | a channel name passes through the 64-byte response field unchanged |
| Message.LinkNameSpec | include/HyCAN/Daemon/Message.hpp:70-84 | a link's name is what comes before the first NUL of the name given, at most 15 characters of it |
| Message.NamesAgree | include/HyCAN/Daemon/Message.hpp:70-84 | for names of any length, the request's truncated name and the one the client's socket binds to are equal, and the `can` prefix test agrees |
| Message.IfrReadsBack | src/Interface/Socket.cpp:31-35 | the memcpy into the ifreq reads back as the truncated C string even when the name holds a NUL |
| Message.StrNCpy | include/HyCAN/Daemon/Message.hpp:74-75 | strncpy: the string's prefix, zero padding, and nothing beyond |
| Message.FillField | include/HyCAN/Daemon/Message.hpp:51-52 | the truncating copy with its terminator fills the whole field |
| Message.FillIfrName | src/Interface/Socket.cpp:31-35 | the copy loop leaves the whole zero-padded field |
| Message.NetlinkRequest.State | include/HyCAN/Daemon/Message.hpp:70-76 | the receiver reads the truncated name back from a state request |
| Message.NetlinkRequest.Query | include/HyCAN/Daemon/Message.hpp:79-84 | the receiver reads the truncated name back from a query |
| Message.ClientRegisterResponse.constructor | include/HyCAN/Daemon/Message.hpp:46-54 | the client reads the whole channel name back |
| Netlink.ApplyStateContract | src/Daemon/NetlinkManager.cpp:109-164 | a state change touches one link; result 0 means the kernel link is in the requested state, another result that no link changed |
| Netlink.ApplyRateContract | src/Daemon/NetlinkManager.cpp:166-217 | on a link that is down, result 0 for a `can` name means a CAN link with exactly the bitrate; failure changes no link |
| Netlink.SetStateContract | src/Daemon/NetlinkManager.cpp:241-278 | the whole down, bitrate, up sequence: final state and bitrate on result 0, bitrate only issued on a down link, a failed bitrate step leaves the link down or absent, other links untouched |
| Netlink.BitrateByName | src/Daemon/NetlinkManager.cpp:166-278 | an up request with a bitrate answered with result 0 leaves a link whose name begins with the characters c, a, n a CAN link with that bitrate; any other name, or request, keeps the bitrate the link had |
| Netlink.SetStateExact | src/Daemon/NetlinkManager.cpp:241-278 | the exact condition on links and library calls under which a state request is answered with result 0 |
| Netlink.SetStatePossible | src/Daemon/NetlinkManager.cpp:241-278 | a request succeeds when nothing fails, and can succeed at all, if and only if the link exists and, going up with a bitrate on a `can` name, is a CAN link |
| Netlink.NonCanLinkNeverUp | src/Daemon/NetlinkManager.cpp:188-216 | an up request with bitrate on a `can` name that is no CAN link always fails and leaves the link down unless it failed before the bitrate step |
| Netlink.QueryContract | src/Daemon/NetlinkManager.cpp:67-107 | a query answered with result 0 tells the kernel's state at that moment, and fails exactly when the refill fails |
| Netlink.CreateContract | src/Daemon/VCAN.cpp:14-68 | result 0 exactly when the probe works and the name exists already or every creating call succeeds; then the name exists, a new link being a down vcan; otherwise no link changes, and existing links never do |
| NetlinkInterleaving.TickFinish | src/Daemon/NetlinkManager.cpp:67-282 | no library call of the mutex holder changes how its request will end, and depth and references stay those of its stage |
| NetlinkInterleaving.StepKeepsInv | src/Daemon/NetlinkManager.cpp:219-282 | any worker's step keeps the correspondence with the sequential run |
| NetlinkInterleaving.Linearizable | src/Daemon/NetlinkManager.cpp:67-282 | with any number of workers, links, cache, issued changes and all responses are those of whole requests run one at a time, and the mutex depth and references are zero between requests |
| NetlinkInterleaving.RequestsServed | src/Daemon/NetlinkManager.cpp:219-282 | however the workers interleave, each worker's requests are served in the order it made them, once each, all but the one in progress |
| NetlinkInterleaving.RateOnlyWhenDown | src/Daemon/NetlinkManager.cpp:241-278 | however they interleave, a worker about to issue a bitrate change finds the kernel's link down or gone |
| NetlinkManager.Manager.CheckInterface | src/Daemon/NetlinkManager.cpp:67-107 | the method refines the check, with depth and references restored on every path |
| NetlinkManager.Manager.SetInterfaceState | src/Daemon/NetlinkManager.cpp:109-164 | the method refines the state change, with depth and references restored on every path |
| NetlinkManager.Manager.SetCanBitrate | src/Daemon/NetlinkManager.cpp:166-217 | the method refines the bitrate step, which reads the cache as it is, with depth and references restored on every path |
| NetlinkManager.Manager.CreateVcanLink | src/Daemon/VCAN.cpp:14-68 | the method refines the creation and gives its link object back on every path |
| NetlinkManager.Manager.ProcessRequest | src/Daemon/NetlinkManager.cpp:219-282 | the method refines the atomic transition, with depth and references restored on every path |
| Handshake.RegistrationRoundTrip | include/HyCAN/Daemon/Message.hpp:29-55 | a pid survives its encoding, and the daemon's answer decodes to that pid's channel name |
| Handshake.AcceptsOwnChannel | src/Interface/NetlinkClient.cpp:43-66 | whatever part of the reply arrives, a client never ends up with another pid's channel |
| Handshake.HandshakeIntegrity | src/Interface/NetlinkClient.cpp:14-127 | over any segmentation and timeouts: registered clients hold their own channel, only whole requests equal to those sent are processed, and an accepted response is the result of that very request |
| Handshake.ConnsOfRun | src/Interface/NetlinkClient.cpp:14-127 | the i-th connection of a run carries exactly the request the i-th client to connect makes of it |
| Handshake.AcceptedIsAnswered | src/Interface/NetlinkClient.cpp:77-127 | a response a client accepts is the result the run gave on that client's own connection, to the request it made there |
| Handshake.RequestRoundTrip | include/HyCAN/Daemon/Message.hpp:60-84 | a request is 24 bytes, from which operation, flags, bitrate and truncated name read back |
| Handshake.ResponseRoundTrip | include/HyCAN/Daemon/Message.hpp:87-111 | a response is 264 bytes, from which result and flags read back |
| Handshake.RequestReachesOwnSession | src/Interface/NetlinkClient.cpp:85-95 | the path an exchange connects to is, in every reachable state of the daemon that has a session for the pid, bound to the socket of that session and no other |
| Handshake.NetlinkClient.EnsureRegistered | src/Interface/NetlinkClient.cpp:14-75 | the client's new state for every outcome; failure leaves it unregistered and unchanged |
| Handshake.NetlinkClient.SendRequest | src/Interface/NetlinkClient.cpp:77-127 | it connects to the channel the client holds, and a response is returned exactly when registered, connected, sent and wholly received |
| Reaper.StepKeepsInv | src/Interface/Dispatcher.cpp:87-181 | every step of reaper, start, stop, registering threads and kernel keeps the invariant on lock, epoll set, thread handle, stop signal and frames |
| Reaper.Lifecycle | src/Interface/Dispatcher.cpp:87-113 | over any calls of start and stop, repeated or failing: at most one thread, epoll within eventfd and current socket, exactly these after a successful start, whose thread was told to stop if and only if an earlier stop of it had failed, and no thread after a successful stop |
| Reaper.StartLeavesDeadThread | src/Interface/Dispatcher.cpp:91-96 | a run in which start succeeds and its thread has already returned |
| Reaper.NoCallbackAfterStop | src/Interface/Dispatcher.cpp:99-113 | no frame is reaped and no callback runs from the return of a successful stop to the next start |
| Reaper.FrameConservation | src/Interface/Dispatcher.cpp:141-180 | arrived frames are flushed, then reaped, then queued frames, in order; in every run, restarted or not, the dispatched frames are the reaped ones once each and in order, with one left-over counter among them exactly when the eventfd was read |
| Reaper.StartFlushes | src/Interface/Dispatcher.cpp:91 | from any reachable state, a start that goes on after its flush has emptied the queue, unless the link is down; in a first run every frame that has arrived has then been flushed |
| Reaper.OnlyLaterFrames | src/Interface/Dispatcher.cpp:91-180 | over the run that follows such a flush, until the next start, reaped and queued frames are exactly those that arrived after it, in order; no earlier frame runs a callback |
| Reaper.RegisteredRuns | src/Interface/Dispatcher.cpp:173-177 | until the next start every dispatch of an id that is registered runs a callback, and a callback runs only for an id that has been registered |
| Reaper.NoStrandedFrame | src/Interface/Dispatcher.cpp:122-180 | one read per event under level-triggered epoll, for every reaper that watches the open socket and has not been told to stop: while frames are queued it can step unless it spins on somebody's lock, its steps take the head frame or come closer to it, and no other thread's undo that |
| Reaper.AfterHolder | include/HyCAN/Interface/Dispatcher.hpp:48-58 | a registration that has the lock runs on to give it back, all its entries written, exactly when no id it has still to write is above 2047, and otherwise to keep it |
| StopSignal.CounterConserved | src/Interface/Dispatcher.cpp:99-148 | over any run, the counter is what stop writes put in less what the reaper has read |
| StopSignal.StopLeavesCounter | src/Interface/Dispatcher.cpp:142-144 | after a run begun with counter 0 the counter is positive until the next start, so the next run never begins with counter 0 |
| StopSignal.RestartReadsCounter | src/Interface/Dispatcher.cpp:122-148 | with a counter left over and no stop requested, whatever is queued, the reaper can step unless it spins, and each step keeps the counter and comes closer to reading it as a frame, which drains it |
| StopSignal.ReadsCounterIff | src/Interface/Dispatcher.cpp:91-148 | a thread can read the eventfd as a frame if and only if it was started with a positive counter |
| StopSignal.NoLostStop | src/Interface/Dispatcher.cpp:99-147 | in a run begun with counter 0: counter positive implies stop requested, the eventfd is never read as a frame, and after the write the counter stays positive until the thread returns |
| StopSignal.CleanStopSeen | src/Interface/Dispatcher.cpp:99-113 | in such a run every stop that has written finds a positive counter and a reaper that will test for it |
| StopSignal.JoinReturns | src/Interface/Dispatcher.cpp:121-181 | a seen stop: whatever arrives or registers, the reaper returns within twenty-one steps of its own, and until then it is blocked exactly while it spins on the lock, which its holder runs on to give back unless a registration with an id above 2047 has taken it |
| StopSignal.LostWakeup | src/Interface/Dispatcher.cpp:99-177 | after its write, stop() can return without a signal if and only if the reaper is not at the read of the eventfd and is not bound to dispatch a frame on a lock that a failed registration has kept or that is with one bound to fail |
| StopSignal.DoomedStop | src/Interface/Dispatcher.cpp:99-177 | once a registration with an id above 2047 has taken the lock, the exact states in which a stop may be lost, and in all others its join can always return |
| StopSignal.LostWakeupReachable | src/Interface/Dispatcher.cpp:99-148 | start, stop, start, stop can reach the lost wake-up |
| StopSignal.LeakLosesStop | include/HyCAN/Interface/Dispatcher.hpp:48-58 | a failed registration, one frame and a stop in the first run reach a join that never returns |
| StopSignal.DoomedHolderLosesStop | include/HyCAN/Interface/Dispatcher.hpp:48-58 | so do a registration of ids 1 and 2048 still inside the lock, one frame and a stop |
| Dispatcher.Dispatcher.Start | src/Interface/Dispatcher.cpp:87-97 | success exactly when each call succeeds and the flush gets past the frames that came early; then a socket bound to the truncated name and drained unless its link is down, exactly eventfd and socket watched, and a thread; failure leaves the thread as it was |
| Dispatcher.Dispatcher.Stop | src/Interface/Dispatcher.cpp:99-113 | join exactly when the write succeeded; the counter keeps the write |
| Dispatcher.Dispatcher.HandleOne | src/Interface/Dispatcher.cpp:142-178 | the method refines one report: a stop found, the counter drained, the head of the queue taken, and what is dispatched with which callback |
| Dispatcher.Dispatcher.HandleBatch | src/Interface/Dispatcher.cpp:141-180 | the loop refines the reports in their order, until one of them ends the batch |
| Dispatcher.BatchOutcome | src/Interface/Dispatcher.cpp:141-180 | what a batch of both descriptors comes to in either order: how it ends, when the counter is drained, which frame leaves the queue, and what is dispatched in which order |
| CallbackTable.AtomicRegistration | include/HyCAN/Interface/Dispatcher.hpp:48-58 | with any number of registering threads and a dispatching reaper, at most one is in the section, and each dispatch sees the table of a whole number of complete registrations in lock order |
| CallbackTable.FramesDispatched | src/Interface/Dispatcher.cpp:173-177 | over any run, the ids dispatched, followed by the one in hand, are those of the frames that came, in order and once each |
| CallbackTable.FrameRunsItsCallback | src/Interface/Dispatcher.cpp:173-177 | the k-th frame that comes is the k-th dispatched and runs the callback that the table of some number of complete registrations has for its own id |
| CallbackTable.RegistrationsComplete | include/HyCAN/Interface/Dispatcher.hpp:40-60 | as long as none has failed, each thread's registrations complete in the order it makes them, once each and unchanged |
| CallbackTable.LastRegistrationWins | include/HyCAN/Interface/Dispatcher.hpp:48-58 | the table has for an id the callback of the last complete registration that names it, and none when there is none |
| CallbackTable.LeakedForever | include/HyCAN/Interface/Dispatcher.hpp:50-55 | after an error return no registration or dispatch completes any more |
| CallbackTable.DoomedForever | include/HyCAN/Interface/Dispatcher.hpp:48-58 | nor does any from the moment on at which a registration with such an id still to come has the lock |
| CallbackTable.LoopReleasesIffInRange | include/HyCAN/Interface/Dispatcher.hpp:48-58 | a registration gives the lock back exactly when all its ids are below 2048 |
| CallbackTable.SpinLock.TryLock | include/HyCAN/Util/SpinLock.hpp:28-31 | succeeds exactly when the load and the exchange after it both see the lock free, whoever ran in between, and leaves the lock as it is when the load saw it taken |
| CallbackTable.Callbacks.RegisterFunc | include/HyCAN/Interface/Dispatcher.hpp:40-60 | the table after success, and after an id out of range, with the lock left taken exactly then |
| CallbackTable.Callbacks.Dispatch | src/Interface/Dispatcher.cpp:173-177 | the entry seen is the table's, and the lock is given back |
| CanSocket.Socket.constructor | src/Interface/Socket.cpp:15-16 | a new socket's descriptor is 0 |
| CanSocket.Socket.EnsureConnected | src/Interface/Socket.cpp:20-62 | the old descriptor is closed, a new one held and bound to the truncated name exactly on success; opens minus closes changes by what is held |
| CanSocket.Socket.Flush | src/Interface/Socket.cpp:64-83 | frames leave the queue in order; success on a CAN socket means an empty queue or a link that is down; without one no queue is touched |
| CanSocket.Socket.Destroy | src/Interface/Socket.cpp:18 | descriptors balance exactly unless sock_fd is still 0 and somebody's descriptor 0 is open |
| CanSocket.Socket.Moved | include/HyCAN/Interface/Socket.hpp:16-19 | the descriptor changes hands; nothing is opened or closed |
| CanSocket.Socket.MoveAssign | include/HyCAN/Interface/Socket.hpp:20-29 | what was held is closed, the other's descriptor taken over, descriptors balance |
| Sender.Sender.Send | include/HyCAN/Interface/Sender.hpp:18-66 | over any sequence of calls: accepted frames are exactly those whose send succeeded, in order and once, at most two writes a call, opens minus closes is what is held; a first write that fails is repeated on a new socket exactly after EBADF, ENETDOWN, EPIPE, ENXIO or ENODEV and a reconnection that works, any other error leaves the descriptor alone, and the result for each outcome with its errno |
| Interface.Interface.EnsureExists | src/Interface/Interface.cpp:20-55 | the exact condition for success, and the links then; only a missing VCAN link is created; no other link changes |
| Interface.Interface.SetInterfaceState | src/Interface/NetlinkClient.cpp:167-190 | the exact condition for success; without the fallback it means the requested state and, going up on a name that begins with c, a, n, a CAN link with the bitrate, other links keeping theirs |
| Interface.Interface.Up | src/Interface/Interface.cpp:18-59 | the exact condition for success over all links and failures; without the fallback the link brought up by the daemon is then the very link the reaper's socket is bound to, its bitrate set if its name begins with c, a, n; the epoll set is exactly right, the queue drained unless the link is down, a thread there; a link not brought up leaves the dispatcher as it was |
| Interface.UpNeeds | src/Interface/Interface.cpp:18-59 | when nothing fails, up succeeds if and only if the link exists or is a VCAN one still to be made, and a `can` name is that of an existing CAN link |
| Interface.Interface.Down | src/Interface/Interface.cpp:62-69 | the exact condition for success; no reaper thread is left, and without the fallback the link is down; a link not brought down leaves the dispatcher as it was |
| CoreAssignment.LoadByTurns | src/Interface/Dispatcher.cpp:13-74 | a core's load is that of whole turns of the 8-bit counter plus that of the last part |
| CoreAssignment.CoreBalance | src/Interface/Dispatcher.cpp:74 | two loads differ by at most 1 + n/256, and by at most 1 when P divides 256 |
| CoreAssignment.CoreDrift | src/Interface/Dispatcher.cpp:74 | after whole turns two loads differ by one a turn exactly when one of the cores, and not the other, is below 256 mod P |
| CoreAssignment.ThreadCounter.Place | src/Interface/Dispatcher.cpp:74 | the wrapping counter places automatically as in the load count; a requested core does not move it |

## Left out

- DaemonShutdown.DeadlockFree: `stop()` has one caller besides the destructor, which begins once that caller has returned; two concurrent callers joining the same thread are not modelled. A handler inside a critical section is the subject of HandlerInsideLock instead.
- DaemonTheorems.RegistrationSound: exceptions other than a thread that cannot be created (out of memory, say) and a constructor of the daemon that throws are not modelled.
- DaemonShutdown.HandlerInsideLock: a handler delivered to a worker or to the cleanup thread is not modelled; its stop() would join a thread that may be waiting for the worker it interrupted, or itself.
- DaemonActivity.ReceiptRenews: between receiving a request and storing the time a worker can be overtaken by a cleanup pass, which then reads the older activity; the program has the same window.
- SessionRegistry.Registry.HandleClientRegistration: the methods of this class describe one critical section at a time; what other threads do between them is the step system's subject.
- UnixSocket.Socket.Initialize: other processes that create, unlink or rename files under `/run` are not modelled; chmod has no effect on any property.
- UnixSocket.Socket.Moved: a moved-from path string is taken to be empty, as common standard libraries leave it.
- Netlink.SetStateContract: links are named, a refused change has no effect, and nobody else changes links meanwhile. Error texts are reduced to which return statement produced them.
- NetlinkInterleaving.Linearizable: the manager's own `initialize` and `cleanup`, and libnl's internals, are not modelled beyond success and failure of each call.
- Handshake.HandshakeIntegrity: a client sends its own pid, and bytes already sent on a connection arrive in order.
- StopSignal.LostWakeup: epoll_wait failing with anything but an interruption, EPOLLERR and EPOLLHUP, and a thread that cannot be created are not modelled. Atomics are sequentially consistent, and a thread that spins is one that waits.
- Reaper.FrameConservation: an identifier past the table, of a counter or of a frame with flag bits, counts as a dispatch that finds no callback; the program would index past its table.
- Dispatcher.Dispatcher.Start: a flush takes effect at the read that finds no frame; frames that arrive while it goes on count as arrived before it.
- Dispatcher.Dispatcher.HandleBatch: it begins with the lock free, and nothing is said of the program after it has indexed past its table.
- CallbackTable.SpinLock.Lock: the method needs a free lock; waiting for it is modelled by the spinning steps of the step system.
- CallbackTable.Callbacks.RegisterFunc: callbacks are opaque, and one that registers callbacks itself is not modelled.
- CanSocket.Socket.Flush: what is read from a descriptor 0 that belongs to somebody else is not modelled.
- Sender.Sender.Send: a write that fails accepts nothing, and a write that succeeds accepts the whole frame.
- Interface.Interface.SetInterfaceState: the fallback command is an outcome only, and its effect on links is not modelled.
- Real-time priority, CPU affinity calls, memory locking and latency statistics.
- The descriptors the dispatcher closes in its destructor after stop().
- The singleton that forwards to the client, error codes, concepts and template instantiations.
