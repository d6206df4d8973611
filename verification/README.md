# TiRTC client SDK: a verified model of its coordination layer

The SDK puts Go objects around an opaque C runtime. This project models the part of it that is written by hand
and concurrent: the two callback schedulers, the two ownership trees with their retryable teardown, the export
task's retirement, and two algorithms (the choice of an export range and the bounded destroy retries).

Every component appears in up to two forms.

* An object with fields that change in place: a class whose methods are the source's methods or lock sections.
  Its contracts say exactly what the new state is.
* A step system: a step is one section between taking and releasing a lock, or the return of one native call
  with the section behind it. `Next` is total (a step the state does not allow changes nothing), so a run is any
  sequence of steps by any number of threads, and every theorem about `Run(steps)` or `Exec` holds for all
  interleavings and all native failures. Native calls answer arbitrarily.
  Connections, clients, outputs, replays, raw dumps, export tasks and list requests count their successful
  destroys. A native call on a connection, client, output or replay after its destroy, or on an export after its
  close was called, is recorded and proved never to happen. For the request of a list call and for the device of a
  replay it is proved exactly when it happens. A recording task has a phase instead of a count.

`dafny verify dfyconfig.toml` checks everything.

## Files

| file | content |
|---|---|
| `Common.dfy` | `Option`, the error classes the layer distinguishes, native codes |
| `CallbackQueue.dfy`, `QueueProtocol.dfy` | storage callback queue: arrays and slots; condition variable, wake-ups, close, dispatch |
| `Mailbox.dfy`, `MailboxFifo.dfy`, `MailboxFates.dfy`, `MailboxProtocol.dfy` | RTC mailbox: five lanes; refinement to one list; what becomes of every event; goroutines, gate, waiters |
| `Connection.dfy`, `ConnectionProtocol.dfy` | one RTC connection as an object, and under any number of concurrent calls |
| `OutputBinding.dfy` | an RTC output as an object; outputs and connections under concurrency |
| `ClientTeardown.dfy`, `Composition.dfy` | the RTC client as an object; its close racing with everything else; its view of a connection is what the connection does |
| `RecordingStop.dfy` | stopping a recording task, single-flight with retry |
| `Backoff.dfy` | the two destroy retry loops with their tight bounds; raw dumps |
| `Discontinuity.dfy` | which delivered frames carry the discontinuity flag |
| `ExportTask.dfy`, `ExportResults.dfy` | export retirement; isolated results and shared deletion of files |
| `StorageBinding.dfy` | storage outputs and replays, as objects and under concurrency |
| `StorageChildren.dfy`, `StorageRegistry.dfy` | the storage client's children, one by one, in an object and under concurrency |
| `StorageRequests.dfy`, `StorageTeardown.dfy` | what becomes of a list call's request; what the client's close guarantees |
| `ReplayGate.dfy`, `ReplayWaits.dfy` | calls, handlers and closes around one replay and its outputs; who waits for whom, and when they deadlock |
| `Coverage.dfy` | the choice of a gap-free export range |

## Assumptions

* Handlers return, and so do native calls. A native play, seek, stop or close of a replay may, in the worst case,
  wait until the replay's callback worker has nothing left to do (`ReplayGate`); the short replay calls a handler may
  make return by themselves and do not hand a reliable task to the worker on its own thread.
* The clock is monotone and a sleep lasts at least as long as asked (`Backoff`).
* `ExportCoverage` proves that the result is contained, capped and at least as long as any free interval on
  every report; that it is itself gap-free and the first such one in scan order needs segments and gaps in order of
  their starts, which is assumed of the runtime's reports.
* A callback is a number, and each callback handed over is a new one; this is how runs are accounted for.
* When a callback runs on a queue's own worker, "in a handler" is known to the call (`entered`, `inHandler`).

## Findings

* A close of the storage client cancels every list call of its snapshot without asking what the call has come to. The
  native cancel then runs on a destroyed request exactly when the close loaded the request's pointer before the
  call cleared it, and the call destroyed the request before the cancel (`StorageRequests.StaleUseIff`, a run is
  `StaleUseHappens`); it gets no request at all exactly when the pointer was loaded after the clear (`NullUseIff`,
  `NullUseHappens`). `NoSnapshotNoLateUse` confines both to calls that a close found registered.
* A handler of a replay that closes an output can deadlock with a handler of that output, for ever: the first
  drains the output's queue while the second is in a call that waits for the replay's worker
  (`ReplayWaits.DeadlockHappens`, `DeadlockIsForever`). This needs a native replay call that waits for the worker.
  Threads wait for one another in a ring exactly then (`CycleIffDeadlocked`), and never while no handler of the
  replay closes an output (`NoCycleWithoutHandlerClose`).
* The device of a replay is closed after the native client was destroyed exactly when the replay's own Close left the
  registry and the client's close was faster (`StorageTeardown.LateDeviceIff`, `LateDeviceHappens`).
* A storage export whose stored error is in-use is gone and still stops the client's close, for example when only
  its device could not be closed (`StorageChildren.InUseExportStopsClose`). It does so exactly for that error
  (`RetiredExportStopsIff`, `RunningExportStopsIff`), and no later close meets it again
  (`StorageTeardown.StoppedOnceByGoneExport`).
* An output's `bound` field and its parent's dependency set do not agree at every instant. They differ exactly
  between the two sections of an attach or a detach, in both packages: `DualityExactly` is the condition and
  `DualityFailsMidCall` a run, in `BindingProtocol` and in `StorageBindingProtocol`.
* A failed preflight of the RTC client is invisible, except that connections created meanwhile are refused:
  `ClientProtocol.FailedPreflightChangesNothing` says so exactly.
* A connect attempt can be in flight when the native connection is destroyed, should the runtime allow it: exactly if the
  close's second look, after the wait for one attempt, found another one and went on
  (`ConnectionProtocol.AttemptOutlivesIff`, `AttemptOutlivesClose`).
* A native close that fails is not tried again, and what it should have destroyed never is: for the request of a list
  call (`StorageRequests.NeverDestroyedIff`, `GiveUpHappens`) and the handle of an export
  (`ExportProtocol.NeverDestroyedIff`, `GiveUpHappens`) exactly in that case. An export that reports no error has
  destroyed its handle.

## Model

| member | source | states |
|---|---|---|
| CallbackLanes.CallbackQueue.Post | storage/queue.go:45-57 | an ordinary callback is appended exactly when the lane has room and the queue is open, and one sleeper is signalled; nothing else changes |
| CallbackLanes.CallbackQueue.PostReliablePass | storage/queue.go:61-76 | one pass of the blocking producer: append, refuse when closed, or go to sleep exactly when full and open |
| CallbackLanes.CallbackQueue.PostControl | storage/queue.go:80-92 | same for the control lane with its own bound, never blocking |
| CallbackLanes.CallbackQueue.PostCritical | storage/queue.go:97-112 | slots keep the first callback or the latest one as asked; slots out of range are refused |
| CallbackLanes.CallbackQueue.ScanCritical | storage/queue.go:160-167 | finds the lowest occupied slot, or that there is none |
| CallbackLanes.CallbackQueue.WorkerSection | storage/queue.go:114-143 | the worker's section sleeps, exits or takes the head of the highest non-empty lane, shifting the lane in place |
| CallbackLanes.CallbackQueue.Idle | storage/queue.go:169-173 | true exactly when no callback is pending in any lane or running |
| QueueProtocol.NoMissedWakeUp | storage/queue.go:61-203 | in every reachable state, with Signal waking any sleeper: a sleeping worker is the only sleeper and has nothing to do; every other sleeper has a reason and is awake after the worker's next section |
| QueueProtocol.ClosedQueueOnlyDrains | storage/queue.go:120-126 | in a closed queue every worker section uses up work and nothing adds any |
| QueueProtocol.CloseReturns | storage/queue.go:195-203 | however threads interleave, the worker has stopped after a bounded number of its sections, so close returns |
| QueueProtocol.LanesAreFifo | storage/queue.go:114-154 | per lane, what finished is a prefix of what started, a prefix of what was accepted; at the stop all accepted callbacks have finished, and critical ones ran or were replaced |
| QueueProtocol.DispatchedExactlyOnce | storage/replay.go:45-51 | a dispatched task is queued, started or run inline, exactly one of these, and after close it has run exactly once; inline exactly when refused |
| QueueProtocol.ServesByPriority | storage/queue.go:114-142 | in every run, whatever step is taken: no ordinary callback starts while a control or critical one waits, no control one while a critical one waits, a critical one only from the lowest occupied slot |
| MailboxSpec.Mailbox.PostBounded | mailbox.go:48-64 | appends with a new sequence number exactly when open and not full, records overflow, starts a goroutine when none drains |
| MailboxSpec.Mailbox.PostLatest | mailbox.go:66-79 | replaces the slot's event by a later one |
| MailboxSpec.Mailbox.PostReserved | mailbox.go:89-102 | fills a reserved slot; only a stop request may be replaced |
| MailboxSpec.Mailbox.SelectOldest | mailbox.go:161-176 | the candidate with the smallest sequence number over all lanes |
| MailboxSpec.Mailbox.TakeNextLocked | mailbox.go:153-205 | takes the stop request first, else the oldest event of the five lanes, and removes exactly that one |
| MailboxSpec.Mailbox.DrainSection | mailbox.go:116-133 | one goroutine section: stop when closed, closing, paused or empty, else enter the handler |
| MailboxSpec.Mailbox.BeginClose | mailbox.go:237-254 | refuses inside a handler or another close, else empties every lane and shuts the gate |
| MailboxSpec.Mailbox.CancelClose | mailbox.go:256-266 | reopens the gate unless closed and restarts draining when something is pending |
| MailboxSpec.Mailbox.FinishClose | mailbox.go:297-308 | closed for good and empty |
| MailboxSpec.PostKeepsArrivals | mailbox.go:48-107 | every post keeps the lanes equal to the projections of one list in order of sequence number |
| MailboxSpec.OldestIsFirstArrival | mailbox.go:161-180 | comparing lane heads finds the first element of that one list |
| MailboxSpec.TakeKeepsArrivals | mailbox.go:153-205 | taking an event removes the head of that one list |
| MailboxFifo.MailboxRefinesFifo | mailbox.go:38-308 | for every history of calls the five lanes give the same replies and deliveries as a single list with coalescing and a stop request that goes first |
| MailboxFates.EveryEventHasOneFate | mailbox.go:38-254 | accepted events are delivered, superseded, discarded by a close or still in a lane: each exactly one of them |
| MailboxFates.LanesHoldArrivals | mailbox.go:153-205 | the numbers in the lanes are exactly those of the arrival list the proofs carry along |
| MailboxFates.HandedOutOnce | mailbox.go:116-136 | what a drain section hands to a handler was in a lane and had not been delivered, superseded or discarded before |
| MailboxFates.FatesAreFinal | mailbox.go:66-254 | although a later step could overwrite it, what became of an event never changes in any continuation: no double delivery, no delivery after a replacement or a discard |
| MailboxFates.DeliveryIsInOrder | mailbox.go:153-205 | the events the drain sections hand out, stop requests aside, come in strictly increasing sequence over the whole run |
| MailboxProtocol.HandlersAreSerialAndGated | mailbox.go:109-266 | one live goroutine while draining and none otherwise, at most one handler, none between a successful beginClose and its cancel |
| MailboxProtocol.ClosedIsForever | mailbox.go:116-308 | after finishClose nothing is pending and no handler runs, whatever is called |
| MailboxProtocol.PendingIsServed | mailbox.go:109-214 | pending events of an open unpaused mailbox have exactly one live goroutine, whose next section runs one |
| MailboxProtocol.SleepersAreServed | mailbox.go:268-277 | a sleeping waitIdle has a reason to sleep, and unless the mailbox is paused there is a live goroutine |
| Connections.Connection.AttachDependency | conn.go:382-400 | the dependency is recorded exactly when the connection is open and the native attach succeeded |
| Connections.Connection.DetachDependency | conn.go:402-420 | the dependency is dropped exactly when the connection is open and the native detach succeeded |
| Connections.Connection.CloseDumps | conn.go:300-316 | releases the snapshot's dumps one by one; stuck exactly when one cannot be destroyed, and that one stays attached |
| Connections.Connection.Close | conn.go:273-380 | closes exactly when nothing is attached, the mailbox agrees twice and every native call needed succeeds; otherwise only destroyed dumps are gone and it can be closed again |
| Connections.Connection.CloseFromClient | conn.go:446-486 | dumps, tasks, outputs, then the connection: closes exactly when each can be removed and the emptied connection closes |
| ConnectionProtocol.DestroyedOnlyWhenEmpty | conn.go:273-380 | under any interleaving: destroyed at most once, never used afterwards, and from the destroy on no output is attached, no recording task is unfinished and every raw dump ever started is released |
| ConnectionProtocol.ReportsAreTrue | conn.go:290-379 | a close, stop or dump close that reported success did it, for good |
| ConnectionProtocol.OneConnectAttempt | conn.go:158-194 | at most one connect attempt is in flight and it is the one a close waits for |
| ConnectionProtocol.AttemptOutlivesIff | conn.go:318-348 | an attempt is in flight at the native destroy exactly if the close does not wait for it, which begins exactly at a second look that finds one |
| ConnectionProtocol.AttemptOutlivesClose | conn.go:318-366 | a run that does it |
| ConnectionProtocol.ClosedIsForever | conn.go:118-371 | a closed connection stays closed, starts nothing and makes no native call |
| ConnectionProtocol.OperationLockIsReleased | conn.go:119-353 | however other threads interleave and whatever each native call answers, the lock has been let go once its holder has taken a bounded number of its own steps |
| ConnectionProtocol.HolderIsNeverBlocked | conn.go:119-353 | the holder can always take such a step, unless it needs the own lock of a raw dump; then one step of the call that has that lock, whatever its destroy answers, lets it go on |
| Composition.StepIsOneChange | conn.go:273-400 | every step of any thread on a connection is at most one gain, loss or close in the client's model, and a close only with nothing attached, recording or unreleased |
| ConnectionProtocol.CloseCanBeRetried | conn.go:309-366 | however many closes failed before, another one can still close the connection |
| Outputs.VideoOutput.Attach | output.go:299-330 | every refusal in its order; success links output and connection on both sides |
| Outputs.VideoOutput.Detach | output.go:331-362 | undoes an attach on both sides; refusals change nothing |
| Outputs.VideoOutput.Close | output.go:413-461 | closes exactly when no snapshot is in flight, the mailbox agrees and the detach and destroy it needs succeed |
| BindingProtocol.BindingDuality | output.go:304-362 | when an output's lock is free it is bound to a connection exactly when it is among its dependencies, and that connection is open |
| BindingProtocol.DualityExactly | output.go:321-362 | over all connections the two sides agree exactly outside the two windows between a native call's section and the output's own |
| BindingProtocol.DualityFailsMidCall | output.go:321-328 | a run into such a window |
| BindingProtocol.AtMostOneParent | output.go:310-318 | at every moment an output is a dependency of at most one connection, which is open |
| BindingProtocol.OutputHandlesAreSafe | output.go:384-455 | no output is destroyed twice or used afterwards; a snapshot in flight keeps it alive and in place |
| BindingProtocol.NoDeadlock | output.go:304-355 | with the lock order output then connection every call in progress, or the one it waits for, gets closer to its end |
| Clients.Client.NewConnection | conn.go:40-65 | refused while closing or closed, otherwise registered |
| Clients.Client.Close | runtime.go:55-106 | a failed preflight changes nothing; success leaves every connection ever created closed and empty; any failure can be followed by another close |
| ClientProtocol.DestroyedLast | runtime.go:84-102 | over any run with any failures: when the native client is destroyed every connection ever created is closed with nothing left on it; destroyed at most once; not used afterwards |
| ClientProtocol.FailedPreflightChangesNothing | runtime.go:76-83 | a close that fails in its preflight leaves exactly the state the other threads' steps make without it |
| ClientProtocol.CloseCanBeRetried | runtime.go:84-104 | after any number of failed closes the next close can still close the whole tree |
| RecordingStop.RecordingTask.EnterStop | recording.go:59-75 | return the stored result, wait for the stop in flight, or become the one that stops |
| RecordingStop.RecordingTask.LeaveStop | recording.go:77-94 | the result is stored exactly when the native task is destroyed; the next caller may retry otherwise |
| RecordingStop.SingleFlight | recording.go:65-77 | at most one native stop is in flight, never on a destroyed task |
| RecordingStop.StopsAreBounded | recording.go:58-95 | n callers make at most n native stops |
| RecordingStop.FinishedIsFinal | recording.go:60-90 | after the destroy no stop is invoked and the stored file and error never change |
| RecordingStop.OthersGetStoredResult | recording.go:60-64 | every caller that did not stop the task itself returns the stored file and error |
| RecordingStop.WaitersMakeProgress | recording.go:65-92 | a waiter waits for a stop in flight or can go on, and then only ever waits for a strictly later stop, of which there are at most as many as callers |
| Backoff.DestroyAfterTerminal | internal/native/storage.go:21-49 | at most 105 destroy calls and 2 s of requested sleep, both reached; in-use is returned only after the deadline; only in-use is retried |
| Backoff.DestroyRetriesBound | internal/native/storage.go:26-47 | exactly 103 full delays fit into the two seconds |
| Backoff.CloseRawDumpNative | raw_dump.go:170-183 | at most 162 calls and 5.023 s of requested sleep, both reached; in-use is returned only after the deadline |
| Backoff.DumpRetriesBound | raw_dump.go:171-181 | exactly 160 delays fit into the five seconds, and 161 add up to 5.023 s |
| RawDumps.RawDump.Stop | raw_dump.go:115-134 | the first successful stop is final and later ones return its archive without a native call, even after a close |
| RawDumps.RawDump.Close | raw_dump.go:136-162 | the native dump is destroyed at most once; a second close does nothing; a failed one can be repeated |
| Discontinuity.FrameGate.Frame | output.go:278-287 | sampling the flag and offering the frame, with a detach possible in between |
| Discontinuity.FlaggedIffLoss | storage/output.go:77-89 | an admitted frame is flagged exactly when the runtime flagged it or something was refused or a detach happened since the previous admitted one |
| Discontinuity.UnflaggedFramesAreContiguous | output.go:68-75 | an unflagged admitted frame directly follows an admitted frame, or starts the stream |
| ExportOutcome.CancellationOnlyExplainsStops | storage/task.go:254-284 | success exactly when all four native answers are success; a cancel request rewrites only native stop and cancel errors |
| ExportProtocol.NoCallAfterClose | storage/task.go:172-288 | over all interleavings of the context hook, Cancel, Progress and Waits no native call starts after the native close, which is called at most once and destroys the handle at most once |
| ExportProtocol.NeverDestroyedIff | storage/task.go:264-283 | the handle of a terminal task stays undestroyed in every continuation exactly if the one native close failed; a task that reports no error has destroyed it |
| ExportProtocol.GiveUpHappens | storage/task.go:264-283 | a run in which only the native close fails, with any code |
| ExportProtocol.ContextIsAlwaysSettled | storage/task.go:172-252 | the context channel is closed at most once and the finisher never waits for it in vain |
| ExportProtocol.TerminalIsFinal | storage/task.go:273-284 | once terminal, result and error never change |
| ExportProtocol.WaitsAgree | storage/task.go:307-320 | every Wait returns the one stored result, and only when the task is fully retired |
| ExportProtocol.LateCancelSucceeds | storage/task.go:216-236 | over all runs: a cancel that begins after the terminal makes no native call and never fails, whatever happens meanwhile |
| ExportProtocol.LateCancelReturns | storage/task.go:220-226 | and it returns success at once, or after one step of the gate's holder |
| MediaFiles.Delete | storage/media_file.go:29-46 | copies with a foreign path are refused, a deleted file is deleted again without a native call, a failed delete can be repeated |
| MediaFiles.DeletedAtMostOnce | storage/media_file.go:33-45 | across all copies native deletion succeeds at most once and is never called again |
| ExportResults.CloneExportResult | storage/task.go:290-305 | an equal result none of whose mutable parts existed before |
| ExportResults.WaitsAreIsolated | storage/task.go:307-320 | after overwriting everything reachable from one Wait's result, the next Wait still returns the stored value |
| Replays.Replay.SetSpeed | storage/replay.go:154-166 | the speed is remembered exactly when it is a known speed, the gate was obtained and the runtime accepted it |
| Replays.Replay.Close | storage/replay.go:236-295 | closes exactly when the queue is ready, nothing is attached or recording, every dump can be destroyed and native stop and close succeed; a failure removes only destroyed dumps; a close that succeeded may still report a dump's stop or the device's close |
| Replays.Replay.CloseFromClient | storage/replay.go:321-361 | dumps, tasks, outputs, then the replay: it ends exactly as the function that the client's models use says, closed or left open, with or without an error |
| Replays.Output.Attach | storage/output.go:91-134 | attaching again to the same replay and channel changes nothing; otherwise links both sides exactly on success |
| Replays.Output.Detach | storage/output.go:136-174 | undoes an attach on both sides and marks the stream interrupted |
| StorageBindingProtocol.BindingDuality | storage/output.go:91-174 | with gates taken replay first, and a bound replay read before either gate: when either gate is free, bound and listed agree, and both ends are open |
| StorageBindingProtocol.DualityExactly | storage/output.go:126-172 | over all replays the two sides agree exactly outside the window between the output's section and the replay's |
| StorageBindingProtocol.DualityFailsMidCall | storage/output.go:126-132 | a run into that window |
| StorageBindingProtocol.AtMostOneParent | storage/output.go:103-134 | at every moment an output is listed by at most one replay, which is open |
| StorageBindingProtocol.HandlesAreSafe | storage/output.go:389-426 | no output or replay is destroyed twice or used afterwards |
| StorageBindingProtocol.NoDeadlock | storage/output.go:96-152 | every call that holds a replay's gate, or the holder of the output gate it waits for, gets closer to its end |
| StorageClients.Client.Create | storage/storage.go:77-105 | a child is opened and registered exactly when no close has been observed and the runtime agrees |
| StorageChildren.RunningExportStopsIff | storage/task.go:238-338 | a running one exactly when its native cancel fails, or the first failing answer of its finishing sequence is in-use, and then it is gone all the same |
| StorageChildren.InUseExportStopsClose | storage/task.go:264-284 | the witness: wait, report and native close succeed, the device's close is in-use, the file is there and the close stops |
| StorageClients.Client.CloseChild | storage/storage.go:335-345 | a child is gone, and stops the close, exactly as its kind's own close from the client comes to |
| StorageClients.Client.Close | storage/storage.go:298-365 | a busy child changes nothing; success means every child ever created is retired; any failure can be followed by another close |
| StorageTeardown.SnapshotsAreComplete | storage/storage.go:298-365 | whatever the interleaving of creation with close: when the native client is destroyed every replay is closed, every export finished and every list call's native close over, its request destroyed unless that close failed; destroyed at most once; nothing but a replay's device used afterwards |
| StorageTeardown.LateDeviceIff | storage/replay.go:279-293 | a replay's device is closed after the native client's destroy exactly when the thread that closed the replay by itself does it after the client was closed |
| StorageTeardown.LateDeviceHappens | storage/replay.go:288-292 | a run that does it |
| StorageRequests.StaleUseIff | storage/storage.go:43-48 | for every run: the native cancel runs on a destroyed request exactly when the close loaded the pointer before the call cleared it and the call destroyed the request before the cancel |
| StorageRequests.NullUseIff | internal/native/storage.go:160-187 | it gets no request exactly when the close loaded the pointer after the call cleared it |
| StorageRequests.RequestIsWhatHappened | internal/native/storage.go:179-188 | a request is destroyed, cleared or given up exactly when the call itself did that at some step |
| StorageRequests.NeverDestroyedIff | storage/storage.go:141-168 | once the call's native close is over, its request is never destroyed in any continuation exactly if that close failed |
| StorageRequests.GiveUpHappens | storage/storage.go:167-168 | a run in which it fails |
| StorageRequests.StaleUseHappens | storage/storage.go:141-167 | a run with a cancel on a destroyed request |
| StorageRequests.NullUseHappens | internal/native/storage.go:179-187 | a run with a cancel on a cleared pointer |
| StorageRequests.OnlySnapshotCallsAreCancelled | storage/storage.go:319-336 | a close only loads and cancels list calls that were registered when it took its own snapshot |
| StorageRequests.NoSnapshotNoLateUse | storage/storage.go:319-336 | where no close finds the call registered, neither kind of late cancel happens |
| StorageTeardown.LeftForever | storage/storage.go:101-111 | a child that has left the registry never comes back |
| StorageTeardown.StoppedOnceByGoneExport | storage/storage.go:335-345 | a close stopped by an export that is gone was stopped by its stored in-use error, and no later close finds that export in its snapshot |
| StorageTeardown.NothingCreatedWhileClosing | storage/storage.go:77-326 | no child is created from the moment the flag is set until it is given back, nor after success |
| StorageTeardown.ClosedIsForever | storage/storage.go:83-359 | a closed client stays closed and gains no child |
| StorageTeardown.CallWaitsEnd | storage/storage.go:43-145 | once the close has made its cancel, late or not, the call's own last steps end the wait, whether or not its native close succeeds, and touch nothing else |
| StorageTeardown.CancelIsNeeded | storage/storage.go:43-159 | in every run a list call ends only if a close or its own context cancelled it or its request completed by itself |
| StorageTeardown.CloseCanBeRetried | storage/storage.go:327-354 | after any number of failed closes, whatever stopped them, the next one can still close the client once the threads that retired a child have unregistered it |
| ReplayWaits.CycleIffDeadlocked | storage/replay.go:91-295 | in every reachable state threads wait for one another in a ring exactly when a handler of the replay drains an output of which a handler depends on the replay's worker |
| ReplayWaits.DeadlockHappens | storage/output.go:389-426 | a run into that state: a callback is posted while the handler closes the output, and seeks the replay |
| ReplayWaits.DeadlockIsForever | storage/operation_gate.go:14-17 | whatever happens afterwards, the handler never leaves that call |
| ReplayWaits.NoCycleWithoutHandlerClose | storage/replay.go:91-295 | in runs in which no handler of the replay closes an output there is never such a ring, whatever output handlers do |
| ReplayWaits.HandlersWaitOnlyForOutputs | storage/replay.go:91-244 | a handler never waits for its own replay: the long calls and close are refused at once, the others only try the gate; it can only wait for the gate of an output it binds or closes, or for the worker of one it closes |
| ReplayWaits.EverythingEnds | storage/operation_gate.go:12-17 | without new work every order of steps ends after a bounded number of them; where none is left, every call has returned, closes included, no native thread is blocked and every queue is empty, exactly unless the state is deadlocked |
| ExportCoverage.CoveredExportRange | example/storage/main.go:742-779 | on every report the result is inside one segment and the request, at most 5 s, and no shorter than any gap-free interval, so there is none when it reports none; on ordered reports it reports one exactly when there is one, and it is gap-free and the first longest in scan order |
| ExportCoverage.AvoidingIsDisjoint | example/storage/main.go:764-772 | avoiding a non-empty gap means sharing no instant with it |
| ExportCoverage.FirstBestIsUnique | example/storage/main.go:744-751 | there is only one first longest interval |

## Left out

- The C runtime and its bindings: native calls answer arbitrarily; headers, cgo and the thread-local callback marker are not part of this model.
- Logging, build identity, error names, codec and frame conversion, time zones, flag parsing, the rest of both examples: no property beyond field copying.
- The other three output kinds of each package: copies of the one modelled; the RTC ones lack the snapshot counter.
- Connection, client, export task and storage client as shared objects: their methods drop and retake locks, so concurrency is modelled as steps on values; the classes beside them describe one undisturbed call.
- ClientProtocol and BindingProtocol do not contain ConnectionProtocol: they let a connection close in one step when nothing is left on it, which Composition proves of every step for the client's view.
- Dumps and recording tasks of a storage replay under concurrency: only the object `Replays.Replay` has them.
- MailboxSpec.Mailbox.PostBounded: sequence numbers are unbounded, where the source's 64-bit counter would wrap after 2^64 posts.
- Handler panics in the RTC mailbox end the process; in the storage queue they are recovered and count as a return.
- Handler calls from one replay's callback into another replay, client or export, a handler's wait for a recording or raw dump, and waits across several replays.
- Connect's timeout arithmetic and the reaping of a connect attempt that stays in use.
- Fairness: progress is stated as bounded numbers of steps or as the existence of a continuation, not as wall-clock time.
