# Ownership, record store and algorithms of hornlab-beat-bem, in Dafny

hornlab-beat-bem drives a Julia solver from Python. One runtime serves one job at a time, and
threads, sessions, socket clients and a warm-up thread compete for it; any of them may fail,
abandon a job or die at any step. This project models that protocol, layer by layer, and the
smaller algorithms around it, and proves what each of them keeps on every run.

| file | what it models |
|---|---|
| `SubmissionSlot.dfy` | the slot: a class with the source's fields, proved against one function per critical section |
| `SlotHistory.dfy` | what ownership looks like from outside, as a history of events that replays |
| `SlotMachine.dfy`, `SlotMachineProofs.dfy` | all interleavings of threads over the slot, with collector-run finalizers stacked on any running frame, also inside the mutex |
| `Worker.dfy` | all interleavings of sessions over one worker process, whose runtime is a process that may die, with written requests and a pipe of events; each event carries a mark of the request it was emitted for |
| `WorkerFidelity.dfy` | what a session reads against what was said to it |
| `WorkerLapses.dfy` | a start-up cut short and a stream dropped: when a later session can be misled |
| `Session.dfy` | `BeatSolveSession` as a class over the slot's class: constructor, events, close and unwind, with an exception possible at each line; between its steps any other threads run |
| `SessionPath.dfy` | what that class does to its worker, as paths of `Worker.dfy` |
| `Shutdown.dfy` | `shutdown_workers` |
| `Host.dfy`, `HostProofs.dfy` | connections and warm-ups over one engine; every step of the host is some steps of the worker |
| `HostFidelity.dfy` | what the host sends against what it reads |
| `SingleHost.dfy`, `HostedWorker.dfy` | clients that find, replace or start the one host of a key; the client's methods take their steps in that state machine |
| `SingleHostLapses.dfy` | when two hosts of one key can come to live after all |
| `HostedStream.dfy`, `HostedStreamProofs.dfy` | the operations of one client over its connections to the host, from what it asks to what it reads, beside the threads that collect standard error |
| `HostedFidelity.dfy` | what an operation reads against what the host sent and the runtimes said |
| `HostedLapses.dfy` | an operation left early and a status frame that comes late: when another reads what is not its own |
| `StateStore.dfy` | the readiness records: per-backend files, the legacy mirror, migration, a crash between any two replaces |
| `Provision.dfy` | provisioning runs racing over that store under the lock |
| `Framing.dfy` | length-prefixed frames over arbitrary chunks |
| `Fingerprint.dfy` | the byte stream under the package fingerprint |
| `Sweep.dfy` | the event loop of `solve_frequencies` and its echo check |
| `Icosphere.dfy`, `IcosphereShape.dfy` | icosahedron subdivision with a midpoint table per level; the projection onto the sphere and the windings |

A protocol is a state with an `Enabled` predicate and an `Apply` function; `Inv` is kept by every
step (`StepKeeps`), hence holds on every run (`RunKeeps`), and the claims about runs follow from
it. Methods of classes are proved against functions on values, or take their steps in such a
state machine, with any number of steps of others in between.

Some of what one would expect does not hold of the code, and the exact condition is proved instead:

- a wake-up is lost when an exception hits a notified waiter and nobody else has yet to look (`SlotMachineProofs.InterruptedWakeUp`, `WaiterIsStranded`);
- a session's constructor left between its admission and its first store keeps the slot, and its job is neither cancelled nor killed; only the finalizer of the stream, if there is one already, may free the slot later (`Sessions.BeatSolveSession.Start`, `StreamCollected`);
- a stream dropped mid-job hands a live runtime on, and a start-up cut short leaves a live runtime that may still be announcing itself; the next session can read either (`WorkerLapses.DroppedStream`, `WorkerLapses.CutShortStartup`, with a run of each);
- a hosted operation left before its last frame keeps its connection, on which the next operation reads the rest of its answer (`HostedStreamProofs.OwnFrames`, `HostedLapses.LeftBehind`, `SubmissionReadsReady`);
- a line on a runtime's standard error can reach the client as a status frame after its operation's last frame, so that the next operation reads it, and the exact condition is what is still under way when that is sent (`HostedLapses.StatusStrays`, `SubmissionReadsStatus`);
- a draining host removes whatever key file is there, and a client that gives up on a slow host lets others launch another, so that two hosts can serve one key (`SingleHostLapses.RemovalMakesTwo`, `GivingUpMakesTwo`, with a run of each in `SingleHost`);
- an idle timeout that is not positive ends the host at once, also in the middle of a job (`HostProofs.IdleDecision`);
- a lost `hello_ok` keeps its connection counted for good (`HostProofs.CountsAreExact`);
- a corrupt per-backend file makes the migration skip the only copy of a record (`StateStore.LostIffExposed`);
- a reader without the lock can miss a record between its two reads (`StateStore.TornReadMissesOnly`);
- failing to get the provisioning lock at all overwrites a ready record with a failure, and every time costs at most one more attempt (`Provisioning.LockFailureForgets`, `AttemptsAreBounded`);
- the migration of a writer without the lock can put an old record back over a new one (`StateStore.StaleMigration`, `ReadyIsUndone`);
- the sender does not check the receiver's frame limit (`Framing.RoundTrip`);
- two requests within the echo tolerance can be answered in exchange (`Sweep.ExchangeUnnoticed`);
- a file that ends in the unreadable marker is hashed like one whose reading failed there (`Fingerprints.UnreadableIsAContent`).

The docstring at hornlab_beat_bem/worker_host.py:470-477 says that nobody holds the engine's slot
when a client's retire frame is honoured. A warm-up thread can; the model follows the code, and
`HostProofs.RetireFrameSparesJobs` says who the holder can be.

## Model

| member | source | states |
|---|---|---|
| `SlotMachineProofs.NoLostWakeUp` | hornlab_beat_bem/submission.py:87-165 | In every state of every interleaving: a free, open slot with somebody parked has a notified thread that has yet to look again; the waiting count is parked plus notified; nobody is parked once the slot is closed; wake-ups number at most the releases plus the threads parked at close |
| `SlotMachineProofs.OwnershipHistory` | hornlab_beat_bem/submission.py:103-196 | Over every interleaving: serials strictly increase and two admissions have a release of the earlier in between; only an admitted submission is released, once, and never owns the slot again; between a retirement's identity check and the end of its action nothing happens to the slot; a closed slot admits nobody; the history's replay is the slot's state |
| `SlotMachineProofs.RetirementOwnsTheSlot` | hornlab_beat_bem/submission.py:234-248 | While a retirement's action runs, its own submission holds the slot and no other thread is inside the mutex, whatever other threads and finalizers do |
| `SlotMachineProofs.FinalizerReleaseNeverWaits` | hornlab_beat_bem/submission.py:167-232 | A release inside a finalizer is never blocked: with the mutex taken (possibly by its own thread) it is over in one step and nothing of the slot changed; with the mutex free two steps do what a blocking release does |
| `SlotMachineProofs.FinalizerRestoresTheFlag` | hornlab_beat_bem/submission.py:202-232 | Leaving a finalizer gives the thread the may-not-block flag it had on entry, under any nesting |
| `SlotMachineProofs.OwnerCanAlwaysLeave` | hornlab_beat_bem/submission.py:198-248 | The thread inside the mutex, with any finalizers stacked on top of it, reaches a state where the mutex is free by its own steps alone: no self-deadlock |
| `SlotMachineProofs.InterruptedWakeUp` | hornlab_beat_bem/submission.py:112-129 | A notified waiter that is thrown an exception leaves another parked on a free, open slot with nobody to look again exactly if the slot is free and open, somebody is parked, and no other notified thread has yet to look |
| `SlotMachineProofs.WaiterIsStranded` | hornlab_beat_bem/submission.py:112-129 | A run to a state in which that happens |
| `SlotMachineProofs.StepKeeps` | hornlab_beat_bem/submission.py:87-248 | Every critical section, lock, give-up, finalizer entry and exit of every thread keeps the slot's invariant |
| `SlotMachineProofs.RunKeeps` | hornlab_beat_bem/submission.py:87-248 | The invariant holds in every state of every run |
| `SlotMachineProofs.FreeWakes` | hornlab_beat_bem/submission.py:189-196 | A successful release wakes exactly the longest-parked thread, or nobody if none is parked |
| `SlotMachineProofs.CloseWakes` | hornlab_beat_bem/submission.py:131-143 | A close wakes exactly the parked threads |
| `SlotHistory.AdmissionsAreSeparated` | hornlab_beat_bem/submission.py:103-129 | Between two admissions the earlier submission was freed, and the later serial is larger |
| `SlotHistory.StateBetween` | hornlab_beat_bem/submission.py:103-196 | The serial counter never goes back, a closed slot stays closed, and an old serial is held later only if it was held before |
| `SlotHistory.FreedIsFinal` | hornlab_beat_bem/submission.py:167-196 | A freed submission is never admitted, held, retired or freed again |
| `SlotHistory.FreedWasAdmitted` | hornlab_beat_bem/submission.py:167-196 | Every release is of a submission that was admitted before |
| `SlotHistory.RetirementIsExclusive` | hornlab_beat_bem/submission.py:234-248 | The event that follows the start of a retirement is its own end |
| `SlotHistory.ClosedAdmitsNobody` | hornlab_beat_bem/submission.py:131-143 | After a close no admission occurs |
| `SubmissionSlots.SubmissionSlot.Acquire` | hornlab_beat_bem/submission.py:103-129 | One pass of the wait loop: refused when closed, admitted with the next serial when free, else counted and parked last in the queue, out of the mutex either way |
| `SubmissionSlots.SubmissionSlot.Rewake` | hornlab_beat_bem/submission.py:122-127 | A notified thread is back in the mutex and off the waiting count |
| `SubmissionSlots.SubmissionSlot.Release` | hornlab_beat_bem/submission.py:167-196 | With the mutex taken, nothing changes and False; otherwise the holder's own submission frees the slot and wakes the first waiter, any other changes nothing |
| `SubmissionSlots.SubmissionSlot.Close` | hornlab_beat_bem/submission.py:131-143 | Closed, everybody parked woken, holder untouched |
| `SubmissionSlots.SubmissionSlot.BeginRetire` | hornlab_beat_bem/submission.py:234-248 | The mutex is kept exactly if the submission holds the slot; nothing else changes |
| `SubmissionSlots.SubmissionSlot.Finalize` | hornlab_beat_bem/submission.py:309-352 | A finalizer's two nested releases, whatever the mutex: the flag and the mutex come back as they were, and the slot is unchanged or as after one blocking release |
| `Workers.EventAttribution` | hornlab_beat_bem/worker.py:195-223 | For any number of sessions ending in any way, with runtimes dying and terminate called at any moment, every event a session has read was emitted for its own request; only after a start-up was cut short while its runtime was alive and the worker's can it be a runtime's remark about its start-up |
| `Workers.FreeMeansClean` | hornlab_beat_bem/worker.py:288-387 | Whenever the slot is free the runtime is absent, dead, or has no request written to it and no request's events in its pipe (idle with an empty pipe, if no start-up was ever cut short); no two sessions hold the slot |
| `Workers.UnfinishedIsForgotten` | hornlab_beat_bem/worker.py:690-765 | Retirement before release: the step by which an unfinished session gives the slot back leaves the worker without that runtime |
| `Workers.RunForgetsUnfinished` | hornlab_beat_bem/worker.py:690-765 | The same between any two consecutive states of a run, whatever step it was |
| `Workers.OnlyTheHolderFrees` | hornlab_beat_bem/worker.py:257-271 | The slot is given back by a step of its holder and by no other |
| `Workers.StaleRetireIsHarmless` | hornlab_beat_bem/worker.py:257-266 | A retirement by a session that no longer holds the slot changes no runtime |
| `WorkerLapses.CutShortStartup` | hornlab_beat_bem/worker.py:301-356 | A start-up cut short by an exception can still make a later session read what was not emitted for it exactly if the runtime being started is at that moment alive and the worker's |
| `WorkerLapses.DroppedStream` | hornlab_beat_bem/submission.py:317-352 | A dropped stream, whose finalizer releases without retiring, can still make a later session read what was not emitted for it exactly if the runtime is at that moment alive and the worker's; exactly otherwise the invariant survives |
| `WorkerLapses.SomebodyIsMisled` | hornlab_beat_bem/worker.py:301-356 | A run from fresh sessions in which one reads a runtime's remark about a start-up another cut short |
| `WorkerLapses.DroppedJobIsMisread` | hornlab_beat_bem/submission.py:317-352 | A run to a state in which a session's stream, once dropped, leaves its job's events for the next session to read |
| `WorkerLapses.NobodyMisled` | hornlab_beat_bem/worker.py:195-387 | From any state of the invariant with no runtime so exposed, no continuation without another cut-short start-up makes any session read what was not emitted for it |
| `Workers.StepKeeps` | hornlab_beat_bem/worker.py:195-387 | Every step of sessions, runtimes, terminate and shut-down keeps the worker's invariant |
| `Workers.RunKeeps` | hornlab_beat_bem/worker.py:195-387 | The invariant holds in every state of every run |
| `WorkerFidelity.ReadInOrder` | hornlab_beat_bem/worker.py:358-387 | In every state of every run, however sessions end and runtimes die: all that the runtimes were made to say for a request is what its session has read of it, in that order, followed by what is still in the pipe of the runtime it was written to; so nothing is skipped, repeated or reordered, and unless a start-up was cut short under a live runtime the session has read the beginning of it and nothing else |
| `WorkerFidelity.StepFaithful` | hornlab_beat_bem/worker.py:195-387 | Every step keeps that account, adding exactly what the step makes a runtime say for the request |
| `Sessions.BeatSolveSession.Start` | hornlab_beat_bem/worker.py:575-688 | A constructor left by an exception at any line, during submit, between admission and the first store, between the stores or by any event or callback: the outcome is the failure that left it, and for events it is told by the first deciding one; the session has dropped what it stored and did to the worker exactly what the case calls for, in order (cancel, kill, free), spelled out per case; and it still holds the slot, with nothing cancelled or killed, exactly if it had been admitted and the exception came before the first store |
| `Sessions.BeatSolveSession.TryStart` | hornlab_beat_bem/worker.py:612-688 | What is stored, held and done, and with which failure, at each place the constructor's body can be left |
| `Sessions.BeatSolveSession.StoreAndBegin` | hornlab_beat_bem/worker.py:652-685 | An exception at any of the store lines leaves the session holding the slot with its submission stored and nothing done yet |
| `Sessions.BeatSolveSession.AbortStart` | hornlab_beat_bem/worker.py:767-802 | The unwind never raises and takes all steps; an unfinished job known to be submitted was asked to cancel; the runtime was killed only while the session held the slot, before it was freed; the slot is given back exactly if the submission or the stream had been stored |
| `Sessions.BeatSolveSession.StreamCollected` | hornlab_beat_bem/submission.py:317-352 | The finalizer of a stream nobody stored frees the slot, with no cancel and no kill, if the mutex is free, and otherwise leaves it held |
| `Sessions.BeatSolveSession.Close` | hornlab_beat_bem/worker.py:728-765 | All five steps run in order whichever raise; the outcome is the first of those that raise, or none if none does; retirement precedes release; the slot is given back if there is anything to give it back with; a second call does nothing |
| `Sessions.BeatSolveSession.RunSteps` | hornlab_beat_bem/worker.py:741-765 | The remaining steps all run and the outcome is the first failure among them |
| `Sessions.FirstFailure` | hornlab_beat_bem/worker.py:741-765 | The outcome is the step that raises with none raising before it; only a kill that takes place, a stream that is there and a directory that is there can fail |
| `Sessions.NoFailure` | hornlab_beat_bem/worker.py:741-765 | There is no failure exactly if no step raises |
| `Sessions.WhatIsRaised` | hornlab_beat_bem/worker.py:741-765 | Closing raises the retirement's failure if the runtime was this session's to kill, else the stream's if there is one, else the process's, else the directory's if there is one, and nothing else |
| `Sessions.BeatSolveSession.RunStep` | hornlab_beat_bem/worker.py:741-765 | A step takes the unwind one step on and raises exactly if its kind can fail here and it does |
| `Sessions.BeatSolveSession.Events` | hornlab_beat_bem/worker.py:690-718 | By the first event at which the consumer leaves, the callback raises or the job ends: unless closing fails, a failed event raises the solver's error, a completed or cancelled one and a consumer that left end it normally, a callback raises its own, and a stream in which there is none raises that it ended early; the session is closed, without the slot, and has by the same event cancelled, killed and freed, in order, what each case calls for; a closing failure is that of a step that fails, and a failing process stop is always raised; not started, it does nothing |
| `Sessions.BeatSolveSession.ConsumeUntilInitialized` | hornlab_beat_bem/worker.py:873-900 | By the first event that decides: initialized returns, failed raises the solver's error and condemns the runtime, completed and cancelled raise that it ended early, the callback raises its own, and without one the stream ended early and freed the slot |
| `Sessions.BeatSolveSession.ReadJob` | hornlab_beat_bem/worker.py:690-718 | By the first event at which the consumer leaves, the callback raises or the job ends, if there is one: what is raised, whether the job is finished, the runtime condemned and the slot held |
| `Sessions.JobEndsAt` | hornlab_beat_bem/worker.py:690-718 | A job's verdict by the kind of its first deciding event, found by position in the stream and by how many events the consumer was given before |
| `Sessions.JobRunsOut` | hornlab_beat_bem/worker.py:690-718 | With no deciding event the verdict is that the stream was over |
| `Sessions.StartsAt` | hornlab_beat_bem/worker.py:873-900 | The same by position for the events the constructor reads |
| `Sessions.StartRunsOut` | hornlab_beat_bem/worker.py:873-900 | ... and with none |
| `Sessions.BeatSolveSession.Submit` | hornlab_beat_bem/worker.py:195-223 | On success this session holds the slot; if anything in the try raises, the slot was given back; if an exception comes between the admission and the try, it stays held |
| `Sessions.BeatSolveSession.StepRetire` | hornlab_beat_bem/worker.py:804-821 | The runtime is killed exactly if it was condemned and the session still holds the slot |
| `Sessions.BeatSolveSession.StepCloseEvents` | hornlab_beat_bem/worker.py:839-855 | The stream's submission is freed even if closing raises |
| `Sessions.BeatSolveSession.StepRelease` | hornlab_beat_bem/worker.py:823-836 | The session's submission is freed if still held, and forgotten |
| `Sessions.Worker.Retire` | hornlab_beat_bem/worker.py:257-266 | The runtime is forgotten exactly if the submission holds the slot, also if the kill raises; the slot does not move |
| `Shutdown.Registry.ShutdownWorkers` | hornlab_beat_bem/worker.py:489-535 | Every slot is closed before any worker is stopped; every worker is stopped whichever fail, a hosted one by detaching or shutting its host down as asked, a child by terminating it; the first failure is raised, and the registry is empty |
| `Shutdown.FailingIffBroken` | hornlab_beat_bem/worker.py:520-535 | A failure is raised if and only if some worker's stop failed, and the failures are those workers' |
| `SessionPaths.JobIsPath` | hornlab_beat_bem/worker.py:690-765 | Whatever the runtime has said by then, and however events() ends, the session has moves in the worker's step system by which it ends so and does to the worker exactly the deeds of the class, in their order |
| `SessionPaths.StartIsPath` | hornlab_beat_bem/worker.py:873-900 | The same for the events the constructor reads; if the job began, the session streams on with nothing done |
| `SessionPaths.LineIsPath` | hornlab_beat_bem/worker.py:767-836 | The same for an exception between the stores and the first event |
| `SessionPaths.SubmitIsPath` | hornlab_beat_bem/worker.py:202-223 | The same for an exception inside submit before the request is written |
| `SessionPaths.JobStops` | hornlab_beat_bem/worker.py:690-718 | A job's verdict is that of some first events that decide nothing and what comes then |
| `HostProofs.HostAttribution` | hornlab_beat_bem/worker_host.py:361-421 | With any number of connections and warm-ups, every solver event sent during a submit belongs to its request (or, only after a start-up was cut short under a live runtime of the engine, is a runtime's start-up remark) |
| `HostFidelity.SentAsRead` | hornlab_beat_bem/worker_host.py:386-411 | In every state of every host run, what was sent to the client of a request is what the host read of its job, in that order and each event once, exactly if no relayed frame of that request was undelivered; and it lacks at most the last event read |
| `HostFidelity.SentInOrder` | hornlab_beat_bem/worker_host.py:386-411 | Unless a start-up was cut short under a live runtime, what was sent for a request is the beginning of what the runtimes said for it over the run |
| `HostFidelity.StepTold` | hornlab_beat_bem/worker_host.py:386-411 | Every step of the host keeps what was sent equal to what was read, or lacking the one event whose frame was lost, after which nothing more is read; nothing is read before the request is written, and nothing after its terminal event |
| `HostProofs.HostCutShort` | hornlab_beat_bem/worker_host.py:338-421 | A job's or warm-up's start-up that is cut short exposes the engine's next session exactly if the runtime being started is then alive and the engine's |
| `HostProofs.AbandonedIsRetiredFirst` | hornlab_beat_bem/worker_host.py:361-430 | Whatever step of the host it is by which an unfinished request gives the engine's slot back, the engine has lost that runtime by then |
| `HostProofs.RunRetiresFirst` | hornlab_beat_bem/worker_host.py:361-430 | The same between any two consecutive states of a host run |
| `HostProofs.RetireFrameSparesJobs` | hornlab_beat_bem/worker_host.py:432-484 | While a client's retire frame is honoured no connection is or can get into a job, and the slot's holder, if any, is a warm-up |
| `HostProofs.RetireFrameForgets` | hornlab_beat_bem/worker_host.py:432-484 | An honoured retire frame leaves the engine without a runtime |
| `HostProofs.DeclinedWhileLocked` | hornlab_beat_bem/worker_host.py:458-465 | A retire frame can be honoured exactly if nobody has the job lock |
| `HostProofs.CountsAreExact` | hornlab_beat_bem/worker_host.py:233-308 | The connection count is the greeted connections plus those whose hello_ok was lost; the clamp at zero never acts; the running flag is up exactly while a connection is in a job |
| `HostProofs.IdleDecision` | hornlab_beat_bem/worker_host.py:208-231 | With a positive timeout the idle test stops the host exactly with no counted connection, no job and a full timeout since last activity; with any other it always does |
| `HostProofs.IdleThroughout` | hornlab_beat_bem/worker_host.py:208-308 | When the idle test stops a host with a positive timeout, then at no moment within that timeout was any connection greeted or about to be, or any job running |
| `HostProofs.EngineRuns` | hornlab_beat_bem/worker_host.py:182-204 | Every step of the host is none, one or two steps of its engine's worker: the host refines the worker |
| `HostProofs.StepKeeps` | hornlab_beat_bem/worker_host.py:233-484 | Every step of connections, jobs, warm-ups, retirements, shut-down and idle monitor keeps the host's invariant |
| `HostProofs.RunKeeps` | hornlab_beat_bem/worker_host.py:233-484 | The invariant holds in every state of every run |
| `SingleHost.AtMostOneHost` | hornlab_beat_bem/worker_client.py:306-423 | With any number of clients racing or giving up and hosts crashing or draining at any moment, no reachable state has two hosts of one key serving or starting (no client giving up on a host that is still starting, no removal of another host's record) |
| `SingleHost.OneLaunch` | hornlab_beat_bem/worker_client.py:371-403 | If no host was lost or given up on, at most one was launched, no client failed, and every connected client is connected to the same live host |
| `SingleHost.ConnectedWasAnswered` | hornlab_beat_bem/worker_client.py:316-332 | In every run, safe or not and whatever hosts were lost: a client that is connected to a process became so by a step in which it greeted the host of that process id, which was serving |
| `SingleHost.GreetsTheRecorded` | hornlab_beat_bem/worker_client.py:334-347 | A client goes on to greet only what the registry names at that moment, and only if that process is alive |
| `SingleHost.WantsWhatIsMissing` | hornlab_beat_bem/worker_client.py:316-332 | A client that has looked wants a host started exactly if the registry names none that is alive |
| `SingleHost.ClearStops` | hornlab_beat_bem/worker_client.py:405-423 | Clearing leaves no record; the host it named is draining if it served and dead if not; no other host is touched |
| `SingleHost.NothingToAdopt` | hornlab_beat_bem/worker_client.py:371-403 | Under the spawn lock, no live record other than the one that could not be greeted means no live host at all |
| `SingleHost.RemovalIsHarmless` | hornlab_beat_bem/worker_host.py:149-168 | A draining host's unconditional removal of the key file keeps what clients and hosts rely on exactly if the key file does not name a serving host |
| `SingleHostLapses.RemovalMakesTwo` | hornlab_beat_bem/worker_host.py:149-168 | After that removal, with a client still to come, two hosts of the key can come to live exactly if the key file named a serving host |
| `SingleHost.TwoHosts` | hornlab_beat_bem/worker_host.py:157-157 | A run, step by step, in which that removal hits a successor's key file and in the end two hosts serve |
| `SingleHost.GivingUpIsHarmless` | hornlab_beat_bem/worker_client.py:392-403 | A client that stops waiting for the host it launched, and lets go of the spawn lock, keeps what the others rely on exactly if that host is not still starting |
| `SingleHostLapses.GivingUpMakesTwo` | hornlab_beat_bem/worker_client.py:392-403 | After a client has given up so, with another still to come, two hosts of the key can come to live exactly if the host given up on is still starting |
| `SingleHost.TwoHostsAfterTimeout` | hornlab_beat_bem/worker_client.py:392-403 | A run, step by step, in which a slow host is given up on and in the end it and its replacement both serve |
| `SingleHost.StepKeeps` | hornlab_beat_bem/worker_client.py:306-503 | Every step of clients and hosts, with removals that hit no other host's record and no client giving up on a host that is still starting, keeps the invariant |
| `SingleHost.RunKeeps` | hornlab_beat_bem/worker_client.py:306-503 | The invariant holds in every state of every run |
| `HostedWorkers.Registry.Connect` | hornlab_beat_bem/worker_client.py:306-332 | A client that returns is connected to the host of the returned pid, which serves at that moment and is the one the registry names, with its token, whether or not hosts were lost before, and has no spawn lock; it fails only for want of the lock or after a host was lost or given up on; the invariant holds on, unless this client itself gave up on a host that was still starting |
| `HostedWorkers.Registry.SpawnHost` | hornlab_beat_bem/worker_client.py:371-403 | A returned record is greeted a last time; none means no lock in time, a lost host or one too slow, which is left as it is; the spawn lock is free afterwards |
| `HostedWorkers.Registry.Handshake` | hornlab_beat_bem/worker_client.py:349-369 | Answered, and connected to the record's host, exactly if that process is a host that serves and has the record's token; otherwise a host is needed in its place, or the client fails if this was the last try |
| `HostedWorkers.Registry.AwaitLock` | hornlab_beat_bem/worker_registry.py:541-579 | The lock is polled until it is had or patience runs out, and the client is inside the section exactly if it was had |
| `StateStore.StoreRefinesMap` | hornlab_beat_bem/provision.py:219-347 | After any series of serialised writes, each cut short anywhere or not, on any well-formed directory, read_state of a backend is its last write that took effect, or its initial record; the directory stays well formed |
| `StateStore.WriteIsAtomic` | hornlab_beat_bem/provision.py:319-347 | A write cut anywhere leaves its backend exactly old or new, and every other backend that is not exposed unchanged |
| `StateStore.LostIffExposed` | hornlab_beat_bem/provision.py:283-316 | A complete write changes another backend's record exactly if that record's only copy is the legacy file and its own path exists unreadable (or names an unknown backend) |
| `StateStore.WriteKeepsWellFormed` | hornlab_beat_bem/provision.py:319-347 | A known backend's write, cut or not, keeps the directory well formed |
| `StateStore.WriteStages` | hornlab_beat_bem/provision.py:319-347 | The disk after a write, by how many of its replaces happened |
| `StateStore.LatestIsLast` | hornlab_beat_bem/provision.py:319-347 | If the last write of a backend finished, the map holds it: backend, status and body as given, schema 2, and the time of the write |
| `StateStore.UntouchedIsInitial` | hornlab_beat_bem/provision.py:219-250 | A backend that is never written keeps its initial record |
| `StateStore.MirrorIsNewest` | hornlab_beat_bem/provision.py:336-347 | The legacy file is the last finished write, field by field, and untouched by an unfinished one |
| `StateStore.TornReadMissesOnly` | hornlab_beat_bem/provision.py:219-250 | A reader without the lock is told the backend's record or none; it misses it exactly if the only copy was in the mirror and the mirror moved on between its two reads |
| `StateStore.UnlockedWrite` | hornlab_beat_bem/provision.py:283-347 | A writer without the lock, with whole writes of others between its look, its migration, its own file and its mirror: what it leaves of any other backend's record |
| `StateStore.StaleMigration` | hornlab_beat_bem/provision.py:283-316 | It takes another backend's newest record away exactly if its migration is of that backend and the record was written between its look and its migration |
| `StateStore.ReadyIsUndone` | hornlab_beat_bem/provision.py:283-316 | A directory and writes for which that happens: a ready cpu record is undone by a cuda run that could not have the lock |
| `StateStore.RuntimeDir.WriteState` | hornlab_beat_bem/provision.py:319-347 | The directory after the call, by how many replaces its process lived for, is the specification's; it finishes exactly if it lived through all |
| `StateStore.RuntimeDir.PreserveLegacyRecord` | hornlab_beat_bem/provision.py:283-316 | The legacy record is copied to its own file exactly if it names a known backend whose file is absent |
| `StateStore.RuntimeDir.ReadBackendStates` | hornlab_beat_bem/provision.py:253-280 | The map agrees with read_state on every known backend, and otherwise holds only the legacy record under its own name |
| `Provisioning.AttemptsAreBounded` | hornlab_beat_bem/provision.py:793-1179 | In every interleaving of runs of all backends: at most one is inside the locked section; attempts for the tracked backend are at most its failed or killed attempts, plus the times its ready record was overwritten for want of a lock, plus one; after a success, and no such overwriting, its record stays ready and no attempt follows |
| `Provisioning.LockFailureForgets` | hornlab_beat_bem/provision.py:446-557 | The record written when the lock cannot be had at all leaves the tracked backend ready exactly if it was and the record is another backend's; the times a ready record is lost so are counted exactly |
| `Provisioning.ReturnsOnRecord` | hornlab_beat_bem/provision.py:912-944 | In every run: whoever returns from a look, before the lock or under it, does so in a state where its backend's record is there, ready and current, is not forced, and leaves the directory as it is |
| `Provisioning.RecordWasEarned` | hornlab_beat_bem/provision.py:945-992 | In every run, a backend whose ready record is on the directory and was not at the start had a run whose instantiation and probe went through |
| `Provisioning.ReadyIsEarned` | hornlab_beat_bem/provision.py:945-992 | Only the recording of such a success, complete or cut by a kill, puts a ready record of a backend on a directory |
| `Provisioning.WhatIsNoted` | hornlab_beat_bem/provision.py:446-992 | After each write of a run the directory says of its backend ready, failed or in progress, as the run is, under schema 2 and at that time |
| `Provisioning.StepKeeps` | hornlab_beat_bem/provision.py:500-557 | Every step of every run, also a kill between two replaces, keeps the invariant |
| `Provisioning.RunKeeps` | hornlab_beat_bem/provision.py:500-557 | The invariant holds in every state of every run |
| `Provisioning.OtherFrame` | hornlab_beat_bem/provision.py:500-557 | No other run moves a run's place in its code or takes its lock from it |
| `Provisioning.Directory.Provision` | hornlab_beat_bem/provision.py:912-1179 | A run ends with ready if it found a record or no step of its work raised, with failed if one did or the lock could not be had at all, and without a status while others keep the lock; a forced run never takes a record for its own; a run that worked not at all and says ready found that record on the directory as it returns |
| `Provisioning.Directory.Look` | hornlab_beat_bem/provision.py:793-829 | A look lets a run return at once exactly if the run is not forced and the record of its backend on the directory (its own file, else the mirror naming it) says ready, names that backend and has the current identity -- or, in the look without the lock, was missed though it is there |
| `Provisioning.Directory.Work` | hornlab_beat_bem/provision.py:945-992 | The work ends ready exactly if none of its steps raised |
| `HostedStreamProofs.OwnFrames` | hornlab_beat_bem/worker_client.py:96-137 | End to end, over all interleavings of one client's operations, its connections, the host and the threads that collect standard error: of answers, an operation reads only its own, with solver events emitted for its own request, exactly if no answer was owed on its connection when it was sent, and otherwise another's first; and of all frames it reads only its own if moreover no status frame of an earlier operation could come |
| `HostedFidelity.ReadAsSent` | hornlab_beat_bem/worker_client.py:265-298 | The solver events an operation has read of its own answer are the beginning of what the host sent for it, in order and each once, and while it is the connection's operation the rest is on the wire, in order; sent with no answer owed and no status frame to stray in, these are all the solver events it reads; once it has read its job's terminal event it has read all that was sent |
| `HostedFidelity.ReadAsSaid` | hornlab_beat_bem/worker_client.py:265-298 | From end to end, unless a start-up was cut short under a live runtime: what an operation has read of its answer is the beginning of what the runtimes said for its request over the run |
| `HostedFidelity.StepReads` | hornlab_beat_bem/worker_client.py:250-298 | Every step of the client and of the host keeps what was read and what is on the wire equal to what was sent |
| `HostedLapses.LeftBehind` | hornlab_beat_bem/worker_client.py:96-109 | The operation sent next on a connection whose last operation was left before its last frame is always such a one |
| `HostedLapses.LeavingOwes` | hornlab_beat_bem/worker_client.py:96-109 | An operation left with its connection open has left at least its last frame to come |
| `HostedLapses.OwingStays` | hornlab_beat_bem/worker_client.py:250-298 | Nothing but the next operation or a closed connection takes that frame away |
| `HostedLapses.NothingOwed` | hornlab_beat_bem/worker_client.py:265-298 | With every operation read to its last frame, no answer is owed |
| `HostedLapses.SubmissionReadsReady` | hornlab_beat_bem/worker_client.py:96-109 | A run in which a start-up is left by its status callback and the submission that follows reads the start-up's answer |
| `HostedLapses.StatusStrays` | hornlab_beat_bem/worker.py:388-410 | An operation sent when no answer is owed can read a frame that is not its own exactly if one is on the wire then, or some thread has taken up an earlier operation's status callback, or the host's thread is still in one that has the engine |
| `HostedLapses.SubmissionReadsStatus` | hornlab_beat_bem/worker.py:358-367 | A run in which a submission follows one that was read to its last frame, and reads a status frame of that one |
| `HostedStreamProofs.StepKeeps` | hornlab_beat_bem/worker_client.py:96-298 | Every step of the client and of the host keeps the composed invariant |
| `HostedStreamProofs.RunKeeps` | hornlab_beat_bem/worker_client.py:96-298 | The invariant holds in every state of every run |
| `Framing.RoundTrip` | hornlab_beat_bem/worker_registry.py:616-650 | What was sent is what is received, and then the end, exactly if no body is empty or over the receiver's limit |
| `Framing.CutStream` | hornlab_beat_bem/worker_registry.py:625-650 | A stream cut anywhere yields exactly its complete frames and then the end, never a wrong frame |
| `Framing.StopsAt` | hornlab_beat_bem/worker_registry.py:625-639 | With a body that cannot be taken, the receiver takes exactly those before it and refuses that one |
| `Framing.DecodeFrame` | hornlab_beat_bem/worker_registry.py:625-639 | The first frame of a stream is taken, refused as empty or refused as too long |
| `Framing.HeaderRoundTrip` | hornlab_beat_bem/worker_registry.py:620-633 | The big-endian 4-byte length reads back |
| `Framing.WholeIsComplete` | hornlab_beat_bem/worker_registry.py:625-650 | A stream that is not cut has all its frames complete |
| `Framing.Connection.ReceiveExactly` | hornlab_beat_bem/worker_registry.py:641-650 | The next count bytes however they arrive in chunks, or None with everything consumed |
| `Framing.Connection.ReceiveFrame` | hornlab_beat_bem/worker_registry.py:625-639 | One call is one step of decoding what is on the wire |
| `Framing.Connection.ReceiveAll` | hornlab_beat_bem/worker_registry.py:625-650 | Whatever the chunks, receiving until the end gives what the stream decodes to |
| `Framing.Connection.SendFrame` | hornlab_beat_bem/worker_registry.py:620-623 | Four bytes that are the body's length, most significant first, and the body are appended, or nothing where the length does not fit them |
| `Framing.Connection.SendAll` | hornlab_beat_bem/worker_registry.py:620-623 | Bodies sent one at a time are the concatenated frames |
| `Fingerprints.EncodingIsInjective` | hornlab_beat_bem/runtime.py:60-126 | Equal byte streams come from equal lists of names and content digests |
| `Fingerprints.EncodingIsSelfDelimiting` | hornlab_beat_bem/runtime.py:60-126 | If two encodings in a row are an encoding, it is that of the two lists in a row |
| `Fingerprints.ParseEncode` | hornlab_beat_bem/runtime.py:60-126 | The stream of any list reads back as that list |
| `Fingerprints.UnreadableIsAContent` | hornlab_beat_bem/runtime.py:60-74 | A file whose reading fails is hashed like the readable file that has the marker after the part read, and like no other |
| `Fingerprints.Hasher.HashContent` | hornlab_beat_bem/runtime.py:60-72 | The digest is that of the file's bytes, read chunk by chunk, or of the part read and the marker where reading fails |
| `Fingerprints.Hasher.HashFile` | hornlab_beat_bem/runtime.py:60-74 | The name's length in four bytes, most significant first, the name and the content's digest are fed, or nothing where the length does not fit |
| `Fingerprints.Hasher.Feed` | hornlab_beat_bem/runtime.py:106-126 | The stream is the encoding of the selected files in order |
| `Sweep.SolveFrequencies` | hornlab_beat_bem/sweep.py:257-529 | Rows are returned exactly if the requests are proper, metadata came, every result was accepted, and the stream ended cancelled, or completed with every request answered; row k, times -i (2 pi f) for the k-th frequency asked for, is the k-th result on the wire, field by field and of the sizes asked for, no row is unfilled, and there are fewer rows than requests only when cancelled; improper requests, no metadata, a failed stream, one that ended early and missing results are told apart; the session is closed either way |
| `Sweep.Collect` | hornlab_beat_bem/sweep.py:300-513 | The same for the part between opening and closing the session |
| `Sweep.Session.Loop` | hornlab_beat_bem/sweep.py:351-470 | The loop runs to the end exactly if the stream did not fail and every result was accepted; its table then holds the rows of all of them, and a cancel was requested exactly if a callback asked to stop |
| `Sweep.Session.Take` | hornlab_beat_bem/sweep.py:359-470 | A result is accepted exactly if there is a request for it, its echo is close, its shape fits and no callback raises; accepted, its row is stored; no other row moves |
| `Sweep.RowMeaning` | hornlab_beat_bem/sweep.py:379-445 | Times -i (2 pi f), by real and imaginary part, the pressures, sphere and traces of a row are those on the wire, plane by plane, with 2 pi and the requested frequency written out; and the impedance is what ImpedanceMeaning says |
| `Sweep.ImpedanceMeaning` | hornlab_beat_bem/sweep.py:406-421 | Times -i (2 pi f) and the driven area, the impedance of a row is the force F of which the wire's first pair is (Re F / 2, -Im F / 2); it is there exactly if that pair has two finite components |
| `Sweep.RescaleUndone` | hornlab_beat_bem/sweep.py:379-381 | Multiplying by -i omega undoes the rescale |
| `Sweep.StreamMeaning` | hornlab_beat_bem/sweep.py:351-362 | By position: the stream ends at the first event that is neither a result nor skipped, as that event says, and its results are those before it, in order and each once |
| `Sweep.RowsMean` | hornlab_beat_bem/sweep.py:379-470 | Every row of a solve that was taken means what its result says, times -i (2 pi f) for its own request, and all rows have the sizes asked for |
| `Sweep.TakenInOrder` | hornlab_beat_bem/sweep.py:366-378 | Results that answer separated requests in any order, with echoes off by no more than 6e-8 relative, are all taken only if in request order |
| `Sweep.EchoTellsApart` | hornlab_beat_bem/sweep.py:366-378 | An echo of one request is not close to a request separated from it |
| `Sweep.OwnEchoIsClose` | hornlab_beat_bem/sweep.py:366-378 | An echo is never refused by its own request |
| `Sweep.ExchangeUnnoticed` | hornlab_beat_bem/sweep.py:366-378 | Some stream that answers the requests out of order, echoing each exactly, is taken whole by the loop exactly if some two requests differ by no more than the tolerance |
| `Sweep.Exchange` | hornlab_beat_bem/sweep.py:366-378 | For such a pair, the stream with those two answers exchanged is one |
| `Sweep.TwoRequestsExchanged` | hornlab_beat_bem/sweep.py:366-378 | Two results exchanged, for 1000 and 1000.0005 Hz, are taken |
| `IcosphereShape.Build` | tests/conformance/analytic.py:23-78 | For every level n, 20*4^n triangles over 10*4^n+2 points, all on the sphere of the radius: proper, closed (every directed edge once, and its reverse once; every point used) after re-winding, and every triangle looking outward; a negative level is refused |
| `IcosphereShape.Subdivide` | tests/conformance/analytic.py:36-65 | Before projection and re-winding: the counts, closedness, and every face flat, of one volume over the origin (a quarter per level) and wound the same way |
| `IcosphereShape.VolumesRefine` | tests/conformance/analytic.py:61-65 | Every face of a level is a quarter of the face it came from, in its plane and with its winding |
| `IcosphereShape.NoneAtOrigin` | tests/conformance/analytic.py:67-69 | No point is the origin, so that each has a projection |
| `IcosphereShape.OntoKeepsSides` | tests/conformance/analytic.py:67-69 | Projection onto the sphere keeps the side a face looks to; a negative radius turns every face over |
| `IcosphereShape.OutwardIsVolume` | tests/conformance/analytic.py:72-74 | The re-winding test is the sign of the volume over the origin |
| `IcosphereShape.OrientedIsClosed` | tests/conformance/analytic.py:70-78 | The re-winding test decides alike on all faces, keeping them or turning every one over, so that the surface stays closed |
| `IcosphereShape.FlippedIsClosed` | tests/conformance/analytic.py:70-78 | A closed surface turned over is closed |
| `IcosphereShape.CornersAreRegular` | tests/conformance/analytic.py:36-48 | The twenty faces over the twelve corners have one volume and wind the same way |
| `IcosphereShape.Orient` | tests/conformance/analytic.py:70-78 | Each face is kept if it looks outward and turned over if not |
| `Icosphere.Sphere.Refine` | tests/conformance/analytic.py:49-65 | After a level the table has exactly the edges of the surface, each with a midpoint of its own, halfway between its ends, and every new point is one; old points stand; the faces are the four parts of each |
| `IcosphereShape.NextLevel` | tests/conformance/analytic.py:49-65 | A level takes a closed surface to a closed surface with four times the faces, one new point for every two sides, and a quarter of the volume per face |
| `Icosphere.RefinedIsClosed` | tests/conformance/analytic.py:61-65 | Splitting every face of a closed surface at the midpoints of its edges gives a closed surface |
| `Icosphere.PartEdgesOnce` | tests/conformance/analytic.py:61-65 | Two parts that share a directed edge are the same part of the same face |
| `Icosphere.KeyCount` | tests/conformance/analytic.py:52-59 | A closed surface has three undirected edges for every two faces |
| `Icosphere.EdgeCount` | tests/conformance/analytic.py:61-65 | Directed edges that occur once number three for every face |
| `Icosphere.IcosahedronIsClosed` | tests/conformance/analytic.py:42-48 | The twenty faces the subdivision starts from are a closed surface on twelve points |
| `Icosphere.PillowBreaks` | tests/conformance/analytic.py:61-65 | On two triangles back to back, whose directed edges all occur once, one level produces a repeated directed edge: the extra condition of closedness is needed |
| `Icosphere.PillowIsClosed` | tests/conformance/analytic.py:61-65 | ... and that surface does satisfy the edge conditions before the level |
| `Icosphere.Sphere.Midpoint` | tests/conformance/analytic.py:52-59 | A midpoint is made exactly if its edge has none yet in the level, and is the same for both directions |

## Left out

- Julia numerics, boundary-element kernels, GPU backends and the cost model: not Python logic of this repository's protocol.
- Sockets, subprocesses, signals, file modes, Windows branches, downloads and archives: a process that may die, a byte stream, an atomic replace, and a lock the kernel frees on death stand for them.
- JSON text and SHA-256: a body is opaque bytes of which only the empty one is known not to parse; the content digest is any function to 32 bytes.
- `await_waiters`, `held`, `closed` and `locked` of the slot: diagnostics that read the same fields.
- Fairness of the slot beyond the order of its queue: a newcomer may take the mutex before a notified waiter, as in the source, and no liveness over a fair scheduler is claimed.
- Workers.EventAttribution: assumes that the solver emits one terminal event per request, last, that an idle runtime emits nothing, and that a runtime which announces a failed start-up is gone at once; an asynchronous exception in `submit` after the request line is written has the effect of a dropped stream, for which `WorkerLapses.DroppedStream` gives the exact condition.
- WorkerLapses.DroppedStream: a dropped stream is outside the runs of the other claims; the lemma gives its exact condition, for a worker under which no start-up was cut short before.
- SlotMachineProofs.NoLostWakeUp: an exception thrown into a notified waiter is outside the runs; `InterruptedWakeUp` gives its exact condition and `WaiterIsStranded` a run.
- The one-shot child process of sessions without a persistent worker: its stop is a step of `close` that may raise, and no more.
- Shutdown.Registry.ShutdownWorkers: an exception that is not an `Exception` out of closing a slot is not modelled.
- SingleHost.AtMostOneHost: assumes that a host that serves accepts a matching handshake, tokens are fresh, process ids are not reused, no client dies inside the spawn section, a host that does not answer dies when it is terminated, key-file removals hit no other host's record, and no client gives up on a host that is still starting (`RemovalIsHarmless`, `GivingUpIsHarmless` and the two runs are about those that do).
- HostedStreamProofs.OwnFrames: `ping`, whose time-out leaves its connection open as an early leave does, is not an operation of the model; a `terminate` from another thread that reads frames off the connection before it closes it is a close; and a stopped host's thread is one that answers no more.
- HostedFidelity.ReadAsSaid: each operation is sent as a request that the host has not begun; that frames come off a connection whole and in order is `Framing`'s.
- Ping, status text and the fields of the handshake other than the token: they add cases and no state.
- Provisioning.AttemptsAreBounded: the tracked backend's runs are not forced, and project, fingerprint and the recorded Julia stay as they are, abstracted to one identity a ready record must have; the record written for want of a lock is one step; `StateStore.UnlockedWrite` says what it does to other backends' records when whole writes come between its replaces, and its replaces between those of one write by the lock's holder are not modelled.
- Provisioning.LockFailureForgets: the write is one step here; `StateStore.StaleMigration` gives the exact condition under which, with whole writes between its steps, it takes another backend's record away too.
- The hardware gate of `provision_gpu`, resolving and downloading Julia, and the wording of statuses: each is a step that succeeds or raises.
- Framing.RoundTrip: frames are written one at a time per connection, also those of the threads that collect standard error; body contents other than the empty one are taken to parse.
- The patterns and the order by which the fingerprint selects files, and its final hex truncation: the stream over any list in any order is modelled.
- Sweep.SolveFrequencies: configuration checks, the sphere grid's angle check, decibels, timings, logs and non-finite pressures are not modelled, and arithmetic is exact.
- IcosphereShape.Build: arithmetic is exact, with the golden ratio a root of x^2 = x + 1 and the length of a vector a parameter with the properties of the Euclidean one; that the surface is connected is not stated.
- Configuration validation, capability tables, status sentences, mesh reading and directivity: finite case splits and folds that would only add easy members.
