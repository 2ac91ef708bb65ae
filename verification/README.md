# Verified model of the Go bridge

A Dafny model of the stateful core of the HarmonyOS Tailscale client's Go bridge (`native/go_bridge`) and of
the Go code carried in `patches/tailscale-ohos.patch`, with machine-checked proofs of what that code is
meant to guarantee. `dafny verify dfyconfig.toml` checks everything.

Concurrent parts are modelled twice and tied together:

- a **World** (the shared fields plus everything in flight), **Events** (one critical section, or one outcome
  of a call out of the code, each), a total function `Apply` and `Run` over any sequence of events, so that a
  theorem about `Run(Initial, events)` speaks of every interleaving;
- a **class** whose methods assign the fields in place, section by section, as the source does. `Valid()` says
  that the fields are those of `Run(Initial, trace)`; each section's contract gives the event it is, and wherever
  the lock is free a method lets everybody else take any number of steps (`Interfere`). What calls out of the code
  bring back (a server's answer and body, file system faults, opens and pushes, failures to launch) are parameters,
  and the contracts say what becomes of the call for each of them.

| part | files |
|---|---|
| backend lifecycle: start, stop, restart, start-up task, watcher, LocalSend sync | `Lifecycle`, `LifecycleProofs`, `LifecycleTheorems`, `LifecycleCompletions`, `BackendController` |
| LocalSend availability: debouncer, probe pool, sweep | `LocalSendDebouncer`, `ProbePool`, `ProbeSweep` |
| Taildrop sending | `Taildrop`, `TaildropProofs`, `TaildropVerdicts`, `TaildropSend` |
| Taildrive transfers and staged files | `TaildriveTransfers`, `TaildriveTransferProofs`, `TaildriveTransferTheorems`, `TaildriveVerdicts`, `TaildriveNameClash`, `TaildriveClient` |
| Taildrive paths | `Percent`, `TaildrivePath`, `TaildriveReading`, `TaildriveRequests` |
| tracked source ports, progress coalescer | `DialPorts`, `TrackedDialer`, `Progress` |
| packet I/O, VPN routes | `HarmonyTun`, `VpnRoutes` |

Results that go against what one would expect of the code, each with a concrete run or input and the exact
condition:

- Path normalisation is **not idempotent**: `/%2Fx y` becomes `//x%20y`, which is refused when normalised again
  (`NormalisingTwiceCanFail`). The check for encoded slashes looks at the escaped path, which is re-encoded when
  the text is not a valid encoding, so it misses them there (`EncodedSlashIsSeenOnlyInValidEncoding`).
  Normalising twice works exactly when the decoded path does not begin with two slashes and something else
  (`NormaliseTwice`), in particular whenever the text has no `%2F` (`IdempotentWithoutEncodedSlash`).
- A finished `restartWithTun` need not run on its own TUN (`RestartCanLoseItsTun`); it installs it exactly when
  no other start got in between (`RestartInstallsExactlyWhenFree`).
- A transfer that reports success need not have published its own file. Whatever files are to be saved, by
  previews, manual downloads or staging, all runs publish own files only **if and only if** no file is to be saved
  under another one's temporary name (`OwnFilesOnlyExactlyWithoutClash`); for every clashing pair there is a run in
  which both succeed and the wrong file stands at the destination (`ClashingNamesSwapFiles`). In a single run a
  published transfer published its own file if and only if nobody renamed over its temporary file while it was at
  work (`PublishedUnlessIntruded`). A part of a file is never published, clash or not
  (`EveryFileIsWholeOrUnfinished`).
- Neither a previous watcher nor a previous sync handle is ever found when a new one is stored, and the sync
  loop's deferred section never has anything to clear (`OnlyDetachTakesHandles`,
  `LifecycleProofs.LoopExitsKeeps`). The 64-bit generation may wrap without harm (`FenceIsExact`).
- The short-write branch of the TUN device's `Write` is dead (`HarmonyTunDevice.WriteTunPacket`).

## Model

| member | source | states |
|---|---|---|
| LifecycleTheorems.ExactlyOnePlace | native/go_bridge/backend.go:319-360 | in every interleaving every watcher or sync context ever made is in exactly one place: unstored with its maker, in the controller, with a caller about to cancel it, or cancelled |
| LifecycleTheorems.AtMostOneLive | native/go_bridge/backend.go:952-971 | at most one watcher and one sync loop are neither cancelled nor about to be, and only while a server is installed |
| LifecycleTheorems.OnlyCallsHoldRunningHandles | native/go_bridge/backend.go:952-971 | a handle a goroutine runs under is held by nobody but a stop or restart about to cancel it, never by a start-up task |
| LifecycleTheorems.NothingLiveWhenStopped | native/go_bridge/backend.go:319-360 | with no server and no stop or restart still about to cancel what it took, every watcher and sync loop is cancelled, also while start-up tasks of replaced backends run on |
| LifecycleTheorems.StepMovesOnwards | native/go_bridge/mesharc_devices.go:241-263 | a handle only ever moves towards its cancellation |
| LifecycleTheorems.HeldUntilCancelled | native/go_bridge/backend.go:345-356 | a handle taken by a caller stays with it until that caller has cancelled it, over any run |
| LifecycleTheorems.StopCancelsWhatItTook | native/go_bridge/backend.go:319-360 | once a stop or restart is past its cancels, everything its section found in the controller is cancelled, whatever ran in between |
| LifecycleTheorems.TaskKeepsKind | native/go_bridge/backend.go:454-502 | a number once given to a stop or restart never belongs to anything but a stop or restart again |
| LifecycleTheorems.OnlyDetachTakesHandles | native/go_bridge/mesharc_devices.go:265-287 | handles leave the controller through stop and restart alone |
| LifecycleTheorems.FieldsComeFromTheInstalledServer | native/go_bridge/backend.go:2657-2690 | client, start error, incoming files and device tables are empty without a server and otherwise written by a task of the installed server and generation; starting iff a start can be cancelled, external TUN iff a device is set |
| LifecycleTheorems.FenceIsExact | native/go_bridge/mesharc_devices.go:367-371 | the (server, generation) test passes if and only if the task's server is still installed, also when the generation wraps |
| LifecycleTheorems.PublishedStatusIsTheVerdict | native/go_bridge/mesharc_devices.go:373-415 | in every reachable state the published status of every peer is the debounced verdict on the last two accepted sweeps, cancelled and stale sweeps counting for nothing |
| LifecycleTheorems.StartUpEndsInServiceOrError | native/go_bridge/backend.go:2638-2690 | "starting" is shown exactly while the installed backend's start-up task is in flight, without an error; once it is over, client, watcher and sync loop are in place and there is no error, or the start-up recorded one |
| LifecycleTheorems.RestartInstallsExactlyWhenFree | native/go_bridge/backend.go:392-452 | a restart's second section installs its TUN iff the URL is usable and no server was installed meanwhile, and changes nothing otherwise |
| LifecycleTheorems.RestartCanLoseItsTun | native/go_bridge/backend.go:454-502 | a run in which the restart completes and another start's server without TUN is installed |
| LifecycleCompletions.StopCancelsTheStart | native/go_bridge/backend.go:319-360 | once a stop or restart is past its cancels, the start-up that its section found under way is cancelled |
| LifecycleCompletions.StoppedServerIsGone | native/go_bridge/backend.go:319-360 | a server that a stop or restart took away is never installed again |
| LifecycleCompletions.GenerationCountsChanges | native/go_bridge/backend.go:319-446 | the generation moves on by one, modulo 2^64, with every stop, restart and installed server and with nothing else |
| LifecycleCompletions.SweepsCountExactlyWhenCurrent | native/go_bridge/mesharc_devices.go:373-415 | a finished sweep is accepted and merged iff its server is installed with a client, and leaves no trace otherwise |
| LifecycleCompletions.CancelledLoopsEnd | native/go_bridge/mesharc_devices.go:265-287 | a cancelled watcher or sync loop can end, the loop after handing in the sweep it holds |
| LifecycleProofs.RunKeepsInv | native/go_bridge/backend.go:392-452 | the protocol invariant survives any run |
| LifecycleProofs.LoopExitsKeeps | native/go_bridge/mesharc_devices.go:265-287 | the deferred section of a cancelled loop changes no field |
| Backend.BackendController.InstallSection | native/go_bridge/backend.go:398-446 | a server is installed only when none is and nothing is starting; every modelled field of the new state |
| Backend.BackendController.DetachSection | native/go_bridge/backend.go:322-344 | the section of stop and restart empties every modelled field of the backend and moves the generation on |
| Backend.BackendController.StartWithDevice | native/go_bridge/backend.go:308-317 | a start, which brings no TUN, installs its server, starting and without a TUN, iff its URL is usable and no server was installed |
| Backend.BackendController.TearDown | native/go_bridge/backend.go:345-360 | every handle the call took, and the start-up it found under way, is cancelled on return, whatever others do between the cancels |
| Backend.BackendController.Stop | native/go_bridge/backend.go:319-360 | on return every handle it found stored and the start-up it found under way are cancelled, and the server it found is not the installed one |
| Backend.BackendController.RestartWithTun | native/go_bridge/backend.go:454-502 | without a usable TUN descriptor nothing changes; otherwise as stop, and then it installs its TUN and starts up iff the old server closed, the URL is usable and the second section met no server; with the first two, some server stands in the end |
| Backend.BackendController.Reinstall | native/go_bridge/backend.go:392-452 | the second section of a restart: its server, its TUN and a start-up task iff the URL is usable and no server is there, and nothing otherwise |
| Backend.BackendController.SetStartErrorFor | native/go_bridge/backend.go:2681-2690 | the error shows exactly when the task's backend is still installed |
| Backend.BackendController.StartTaildropIncomingWatch | native/go_bridge/backend.go:952-971 | under interference the context made here ends up cancelled, or with a watcher running under it |
| Backend.BackendController.StartMeshArcDeviceSync | native/go_bridge/mesharc_devices.go:241-263 | the same for the sync loop |
| Backend.BackendController.StoreWatchSection | native/go_bridge/backend.go:956-969 | the context is stored, and the incoming list emptied, iff the task's backend is still installed, and then there was no previous one |
| Backend.BackendController.StoreSyncSection | native/go_bridge/mesharc_devices.go:245-259 | the same for the sync context |
| Backend.BackendController.Serve | native/go_bridge/backend.go:2657-2679 | the same from the client on: at its end its own backend is in full service without an error, or shows the failing restore |
| Backend.BackendController.RestoreAndFinish | native/go_bridge/backend.go:2665-2679 | the end of the start-up; if the backend is still this task's, a failing restore is the error shown, and otherwise it is in full service without an error |
| Backend.BackendController.ReadySection | native/go_bridge/backend.go:2670-2679 | the backend stops "starting" if it is still this task's, and is then in full service without an error; nothing changes otherwise |
| Backend.BackendController.StartAsync | native/go_bridge/backend.go:2638-2679 | the start-up runs to its end under interference; if its backend is still installed then, that is not "starting", and is in full service without an error if neither launch nor restore failed, or shows the one that did |
| Backend.BackendController.UpdateTaildropIncomingFiles | native/go_bridge/backend.go:1001-1025 | only the installed backend's watcher replaces the incoming list, and then with what it was told |
| Backend.BackendController.ForgetDeviceSync | native/go_bridge/mesharc_devices.go:265-287 | the loop's deferred section leaves the controller as it was |
| Backend.BackendController.MergeEntry | native/go_bridge/mesharc_devices.go:385-406 | one visited peer: its counter and published status become the debouncer's, every other counter is untouched |
| Backend.BackendController.DropUnseenFailures | native/go_bridge/mesharc_devices.go:407-412 | exactly the counters of peers the sweep saw remain, in any iteration order |
| Backend.BackendController.MergeEntries | native/go_bridge/mesharc_devices.go:385-406 | the loop over the sample, in any order, leaves every visited peer's status and counter as the debouncer's and all others alone |
| Backend.BackendController.UpdateMeshArcDeviceStatuses | native/go_bridge/mesharc_devices.go:373-415 | a sweep is accepted iff its backend is installed with a client, and then the tables edited in place are the debouncer's on it, whatever the iteration order, and otherwise nothing changes |
| Backend.BackendController.PublishFinishedSweep | native/go_bridge/mesharc_devices.go:289-334 | a finished sweep is published, and counted among the accepted ones, iff its backend is still current |
| Backend.BackendController.HasPendingMeshArcDeviceFailure | native/go_bridge/mesharc_devices.go:417-431 | the flag is true iff the backend is current and some counter is exactly one |
| LocalSendDebouncer.MergedIsDeterministic | native/go_bridge/mesharc_devices.go:380-415 | the per-peer entries decide both tables, so no map order can matter |
| LocalSendDebouncer.OneMoreSample | native/go_bridge/mesharc_devices.go:385-406 | one more sample takes a peer's stored status and counter from the verdict on the two samples before to that on the last two |
| LocalSendDebouncer.DebounceTheorem | native/go_bridge/mesharc_devices.go:373-415 | after any history of sweeps a peer's published status is a function of its last two samples and its counter one of its run of failures |
| LocalSendDebouncer.PublishedStatusInFull | native/go_bridge/mesharc_devices.go:385-415 | after any history what is shown of a peer, and its counter, written out for each pair of last samples: a miss of a peer not listed before shows "checking" |
| LocalSendDebouncer.NothingShownUnseen | native/go_bridge/mesharc_devices.go:385-415 | "available" was found by one of the last two sweeps, "unavailable" by both |
| LocalSendDebouncer.PendingFailureMeaning | native/go_bridge/mesharc_devices.go:417-431 | a failure is pending iff some peer failed its last sweep and not the one before |
| LocalSendDebouncer.FailuresNeverExceedTwo | native/go_bridge/mesharc_devices.go:380-412 | failure counters are one or two |
| LocalSendDebouncer.RefreshSettlesFailedPeer | native/go_bridge/mesharc_devices.go:336-365 | a peer that fails both sweeps of one manual refresh is "unavailable" afterwards |
| LocalSendDebouncer.SingleMissKeepsAvailable | native/go_bridge/mesharc_devices.go:385-406 | one miss of an available peer still shows the available sample |
| ProbePool.ReachableInv | native/go_bridge/mesharc_devices.go:612-648 | in every interleaving a job is in one worker's hands, among the results, failed or not yet taken, never twice and never lost |
| ProbePool.NoWorkerBlocks | native/go_bridge/mesharc_devices.go:616-648 | a worker with a result to send always finds room in the result channel |
| ProbePool.EveryMoveCounts | native/go_bridge/mesharc_devices.go:624-649 | every step of any worker that has not exited brings the end of the pool nearer |
| ProbePool.ResultsAreTheAnswers | native/go_bridge/mesharc_devices.go:624-650 | when all workers have exited the channel holds exactly the addresses that answered, once each |
| ProbePool.MeshArcPeerAddresses | native/go_bridge/mesharc_devices.go:855-884 | the distinct valid IPv4 addresses if there are any, else all distinct valid ones |
| ProbeSweep.CollectMeshArcPeerCandidates | native/go_bridge/mesharc_devices.go:663-677 | the candidates are exactly the tried addresses of the online, unexpired peers of a running backend |
| ProbeSweep.RunWorkers | native/go_bridge/mesharc_devices.go:612-650 | for any schedule the results are the jobs that succeeded, without repetition |
| ProbeSweep.DrainResults | native/go_bridge/mesharc_devices.go:651-661 | a peer is available iff some result is its own; one item each, with the address and the answer of one of its results |
| ProbeSweep.ProbeMeshArcDeviceItems | native/go_bridge/mesharc_devices.go:584-661 | the sample lists exactly the online, unexpired peers; available iff a tried address answered; exactly one item per available peer, whose address is a tried one of that peer's, answered, and gives the status |
| TaildropProofs.CompletedRecordAccountsForEveryFile | native/go_bridge/backend.go:1056-1149 | a "completed" record has all bytes of all files of its request sent and its last file counted, under any interference |
| TaildropProofs.ActiveRecordStaysWithinTotal | native/go_bridge/backend.go:1112-1146 | while no push reads past its file, an open record stays within its total |
| TaildropProofs.OnlyARetryLowersTheCount | native/go_bridge/backend.go:1092-1119 | while no push reads past its file, the sent count drops only when a retry opens its file, back to the total of the completed files |
| TaildropProofs.PushesFollowTheList | native/go_bridge/backend.go:1085-1149 | successful pushes are a prefix of the list in order; a re-push follows a transient error; at most three pushes a file and three times the file count in all |
| TaildropProofs.SendersTerminate | native/go_bridge/backend.go:1085-1149 | every step of a sender but a read lowers what is left to it, and nobody else moves it |
| TaildropProofs.SendIsBounded | native/go_bridge/backend.go:1085-1149 | over any run a send of n files makes at most 11 n + 4 steps apart from its reads |
| TaildropProofs.ReachableInv | native/go_bridge/backend.go:1027-1149 | in every interleaving the open record accounts for what its sender has done so far: file, name, target, bytes and counts |
| TaildropVerdicts.VerdictIsExact | native/go_bridge/backend.go:1424-1455 | over any run, a sender at work has its record open iff it was not withdrawn by a cancel or a rejected request, and the record of one that has returned is "completed" iff every file was pushed and it was not withdrawn |
| TaildropVerdicts.OwnVerdictIsExact | native/go_bridge/backend.go:1085-1149 | an open record that its own sender closes is "completed" iff every file was pushed, and otherwise failed with the reason that explains it |
| TaildropVerdicts.RecordNamesTheTarget | native/go_bridge/backend.go:1078-1084 | from the lookup to the end the record names the target that was found |
| TaildropVerdicts.CancelledSenderWindsUp | native/go_bridge/backend.go:1085-1119 | over any run, a sender whose context is cancelled pushes at most the file it has begun |
| TaildropVerdicts.FirstVerdictStands | native/go_bridge/backend.go:1406-1455 | over any run the first verdict on a request stands until another request takes the slot, and its record never comes back changed |
| TaildropVerdicts.LostSlotStaysLost | native/go_bridge/backend.go:1412-1440 | a sender that lost the slot never writes it again |
| TaildropVerdicts.CancelReachesTheOwner | native/go_bridge/backend.go:1442-1455 | cancelling closes the open record and reaches the context of the request recorded in it |
| TaildropSending.ValidateSizes | native/go_bridge/backend.go:1332-1360 | the total, or a refusal exactly when it does not fit in 63 bits |
| TaildropSending.TransferSlot.FinishTaildropTransfer | native/go_bridge/backend.go:1424-1440 | closes the record iff it is this request's and open, and returns whatever is in the slot |
| TaildropSending.TransferSlot.CancelTaildropTransfer | native/go_bridge/backend.go:1442-1455 | closes an open record and hands out the stored cancel function |
| TaildropSending.TransferSlot.ReplaceTaildropTransfer | native/go_bridge/backend.go:1406-1410 | a refused request's record takes the slot whoever is in it |
| TaildropSending.TransferSlot.TaildropSend | native/go_bridge/backend.go:1027-1149 | refused requests and busy slots as the source answers them; an accepted send comes back "completed" iff every file was pushed and its record not withdrawn, and unless it was cancelled at work every file is pushed iff lookup, opens and pushes allow it, and the failure is theirs |
| TaildropSending.TransferSlot.SendFiles | native/go_bridge/backend.go:1085-1149 | the same from the file loop on, under interference at every point where the lock is free |
| TaildropSending.TransferSlot.SendFile | native/go_bridge/backend.go:1091-1146 | at most three pushes of this file, numbered from one, all but the last failed transiently; success iff the last one succeeded, and the outcome is that of the attempts given unless the context was cancelled |
| TaildropSending.TransferSlot.OpenFile | native/go_bridge/backend.go:1093-1119 | the wait, the open and the size check, each with its own failure, or the record reset for this attempt; a wait fails only on a cancelled context |
| TaildropSending.TransferSlot.FailSend | native/go_bridge/backend.go:1138-1141 | a failing send returns "failed" with its reason unless its record was withdrawn, and then not "completed" |
| TaildropSending.TransferSlot.PushFile | native/go_bridge/backend.go:1120-1136 | one push with its progress callbacks between others' steps ends counted, retried or failed as its error says |
| TaildriveTransferProofs.ReachableInv | native/go_bridge/taildrive.go:951-1011 | slot and file invariants over every run, crashes and clashing names included |
| TaildriveTransferTheorems.StopBelongsToTheRecord | native/go_bridge/taildrive.go:951-1011 | the cancel handle is set exactly while the record is queued or transferring, and is that request's |
| TaildriveTransferTheorems.CompletedRecordTellsTheLength | native/go_bridge/taildrive.go:805-868 | a completed download's bytes are the length of a file that was published, and equal the total when the length was declared |
| TaildriveTransferTheorems.UntrackedLeavesTheSlot | native/go_bridge/taildrive.go:739-744 | manual downloads and staged files never touch the slot, from their beginning on |
| TaildriveTransferTheorems.FirstVerdictStands | native/go_bridge/taildrive.go:982-1011 | over any run the first verdict on a request stands until the slot is another request's or gone |
| TaildriveTransferTheorems.BusySlotTurnsAway | native/go_bridge/taildrive.go:951-969 | over any run that leaves a request's record open, no other tracked transfer has begun |
| TaildriveTransferTheorems.EveryFileIsWholeOrUnfinished | native/go_bridge/backend.go:1283-1319 | with a fault or crash at any point and whatever names are used, a transfer's file found under any name is whole, or is an unfinished transfer's under its own temporary name |
| TaildriveTransferTheorems.NothingLeftBehind | native/go_bridge/taildrive.go:838-844 | an ended transfer, short of a crash or a failed removal, leaves no temporary file |
| TaildriveTransferTheorems.HoldsNameUnlessIntruded | native/go_bridge/taildrive.go:829-837 | at work, a transfer's temporary name leads to its own file iff no other transfer has renamed over it since |
| TaildriveTransferTheorems.PublishedUnlessIntruded | native/go_bridge/taildrive.go:823-868 | in any run a published transfer published its own file, with the content it still has, iff no other one renamed over its temporary file while it was at work |
| TaildriveTransferTheorems.CompletedMeansPublished | native/go_bridge/taildrive.go:823-868 | a completed preview's record tells the length of its file, which was published as its own iff nobody intruded |
| TaildriveVerdicts.VerdictIsExact | native/go_bridge/taildrive.go:982-1011 | over any run, a tracked transfer at work has its record open iff it was not withdrawn by a cancel or crash, and the record of one that is over is "completed" iff its file was published, or the server took its upload, and it was not withdrawn |
| TaildriveVerdicts.OwnersStep | native/go_bridge/taildrive.go:781-868 | an open record that its own transfer closes is "completed" iff that succeeded, and otherwise failed with the fault it met |
| TaildriveVerdicts.CallSucceedsExactlyWhenFree | native/go_bridge/taildrive.go:823-866 | a file system call leads on iff it meets no fault and no name it needs is taken |
| TaildriveNameClash.ClashingNamesSwapFiles | native/go_bridge/taildrive.go:823-866 | for any two jobs of which one is to be saved under the other's temporary name, a run in which both succeed and the wrong file stands at the destination |
| TaildriveNameClash.OwnFilesOnlyExactlyWithoutClash | native/go_bridge/taildrive.go:823-866 | whatever jobs, every run of them publishes own files only iff no job is to be saved under another one's temporary name |
| TaildriveClients.TaildriveClient.BeginTaildriveTransfer | native/go_bridge/taildrive.go:951-969 | queued iff the slot was free; otherwise nothing changes |
| TaildriveClients.TaildriveClient.FinishTaildriveTransfer | native/go_bridge/taildrive.go:982-996 | closes the record iff it is this request's and open |
| TaildriveClients.TaildriveClient.CancelTaildriveTransfer | native/go_bridge/taildrive.go:998-1011 | the handle that comes out is the open record's, if any; afterwards the slot is closed |
| TaildriveClients.TaildriveClient.TaildriveDownload | native/go_bridge/taildrive.go:746-868 | a busy slot turns a tracked download away; otherwise its file is published iff the server answers, the body arrives with its declared length, no call fails and no name is taken, with the body as its content; "completed" comes back iff it was published and the record not withdrawn |
| TaildriveClients.TaildriveClient.AwaitResponse | native/go_bridge/taildrive.go:806-822 | the declared length becomes the total of the local counter and, while it is open, of the record |
| TaildriveClients.TaildriveClient.FileCall | native/go_bridge/taildrive.go:823-866 | one file system call: on to the next iff it meets no fault and finds the names it needs free; a failure aborts if the temporary file was created and just fails otherwise |
| TaildriveClients.TaildriveClient.Prepare | native/go_bridge/taildrive.go:823-837 | success iff no call fails and no name is taken: then destination and later temporary name were found free, and the temporary file is this transfer's |
| TaildriveClients.TaildriveClient.Publish | native/go_bridge/taildrive.go:857-866 | published iff sync, close and rename meet no fault, an abort otherwise |
| TaildriveClients.TaildriveClient.Conclude | native/go_bridge/taildrive.go:781-790 | a manual download reports its own counters and verdict; a tracked one what the slot holds, which is its verdict unless the record was withdrawn |
| TaildriveClients.TaildriveClient.CopyBody | native/go_bridge/taildrive.go:845-857 | the file gets the body, counted, and the copy succeeds iff the body ends without an error and meets the declared length |
| TaildriveClients.TaildriveClient.TaildriveUpload | native/go_bridge/taildrive.go:870-940 | a busy slot turns it away; otherwise it counts what was read, and comes back "completed", with the file's size as total, iff the server took it and its record was not withdrawn |
| TaildriveClients.TaildriveClient.StageTaildropWaitingFile | native/go_bridge/backend.go:1269-1320 | no error iff no call fails, no name is taken and the body arrives with the announced size; then a whole file with that body was renamed into place, the request's own unless another transfer intruded |
| Percent.UnescapeInvertsEscape | native/go_bridge/taildrive.go:221-226 | decoding undoes encoding on every byte string (section 2.1 of RFC 3986) |
| Percent.EscapeInjective | native/go_bridge/taildrive.go:221-226 | different paths have different encodings |
| Percent.EncodingOfByte | native/go_bridge/taildrive.go:221-226 | which bytes stay as they are in a path, and the two capital hex digits of the others |
| Percent.EscapeHasNoEncodedSeparator | native/go_bridge/taildrive.go:205-208 | an encoding never holds an encoded slash, and an encoded backslash only for a backslash |
| Percent.CutAtSlash | native/go_bridge/taildrive.go:268-278 | cutting an encoded path at a slash cuts the path itself there |
| TaildrivePath.NormaliseGivesCleanPath | native/go_bridge/taildrive.go:185-226 | the result is the encoding of an absolute path without dot segment, NUL, backslash or trailing slash, namely the reference's decoded path trimmed |
| TaildrivePath.NormaliseOfCanonical | native/go_bridge/taildrive.go:185-226 | every clean path's encoding is a fixed point unless it begins like an authority, and then it is refused |
| TaildrivePath.NormaliseTwice | native/go_bridge/taildrive.go:185-226 | normalising again gives the same result if and only if the decoded path does not begin with exactly two slashes and something else |
| TaildrivePath.EncodedSlashIsSeenOnlyInValidEncoding | native/go_bridge/taildrive.go:205-208 | the encoded-slash check fires iff the text has one and is a valid encoding |
| TaildrivePath.AuthorityLikeNeedsEncodedSlash | native/go_bridge/taildrive.go:192-196 | a plain reference decodes to an authority-like path only if its text has an encoded slash |
| TaildrivePath.IdempotentWithoutEncodedSlash | native/go_bridge/taildrive.go:185-226 | without an encoded slash in the text, normalising is idempotent |
| TaildrivePath.NormalisingTwiceCanFail | native/go_bridge/taildrive.go:185-226 | the concrete path on which it is not |
| TaildriveReading.NormaliseIsExact | native/go_bridge/taildrive.go:185-226 | which references are accepted and as what, for every text: a path without scheme, host, query or fragment text, whose decoded path is absolute and without dot segment, NUL or backslash, in its canonical encoding |
| TaildriveReading.TrailingSlashesAreDropped | native/go_bridge/taildrive.go:217-220 | any number of slashes behind a canonical path is accepted and dropped |
| TaildriveRequests.RequestCarriesCanonicalPath | native/go_bridge/taildrive.go:228-243 | the request URL exists iff the path normalises, and its escaped path is the canonical path |
| TaildriveRequests.HrefIsCanonical | native/go_bridge/taildrive.go:245-257 | every accepted href leads to a canonical path |
| TaildriveReading.HrefIsExact | native/go_bridge/taildrive.go:245-257 | an href is accepted iff it has a web scheme or none, no user, query or fragment and an acceptable path, and names the path it decodes to less its trailing slashes |
| TaildriveRequests.HrefOfCanonicalPath | native/go_bridge/taildrive.go:245-257 | an href that is a canonical path names that path |
| TaildriveRequests.HrefBehindHost | native/go_bridge/taildrive.go:245-257 | so does one with an http address in front |
| TaildriveRequests.ChildIsOneSegmentBelow | native/go_bridge/taildrive.go:259-285 | a name is extracted iff the child's canonical path is the parent's plus that one legal, encoded segment |
| TaildriveRequests.ChildNameRoundTrip | native/go_bridge/taildrive.go:259-285 | below a canonical parent every legal name comes back from the path built for it |
| TaildriveRequests.MoveGuardIsExact | native/go_bridge/taildrive.go:543-558 | a rename or move is refused iff a path is unusable or the root, or the source's segments begin the destination's |
| TaildriveRequests.MutationGuardIsExact | native/go_bridge/taildrive.go:537-558 | making and deleting are refused iff the path does not normalise or is the root; an unknown operation always |
| TaildriveRequests.NoMutationOfTheRoot | native/go_bridge/taildrive.go:537-558 | whatever is mutated is a clean path other than the root |
| DialPorts.ReserveTakesFirstFree | patches/tailscale-ohos.patch:649-667 | the first free port in cyclic order from the cursor, none already reserved for the address; fails iff all 5000 are reserved; the cursor stays in range |
| DialPorts.CycleMeetsEveryPort | patches/tailscale-ohos.patch:653-657 | a cycle from any cursor meets every port of the range |
| DialPorts.ReservedMeansOwnedOnce | patches/tailscale-ohos.patch:637-713 | in every reachable state a pair is reserved iff a dial or open connection owns it, and it has one owner |
| DialPorts.RegrantsAreCyclesApart | patches/tailscale-ohos.patch:649-673 | two grants of one port lie a positive multiple of 5000 cursor steps apart |
| DialPorts.ClosingAgainReleasesNothing | patches/tailscale-ohos.patch:637-647 | closing a connection again changes nothing, even when its pair has a new owner |
| DialPorts.DialsFailOnlyWhenAllPortsAreOwned | patches/tailscale-ohos.patch:649-713 | starting a dial takes nothing from anybody and fails iff all ports of the address are owned |
| TrackedDialing.Netstack.ReserveDialTCPPort | patches/tailscale-ohos.patch:649-667 | the scanning loop on a 16-bit cursor equals the reservation proved above |
| TrackedDialing.Netstack.IsDialedTCPPort | patches/tailscale-ohos.patch:675-680 | the inbound test accepts exactly the owned pairs |
| TrackedDialing.Netstack.DialContextTCPWithTrackedBind | patches/tailscale-ohos.patch:682-713 | a connection comes back iff a port was free and the dial succeeds, and it owns the first free pair |
| TrackedDialing.Netstack.CloseConnection | patches/tailscale-ohos.patch:643-647 | the first close releases the pair, a later one nothing |
| Progress.NothingButSupersededIsLost | patches/tailscale-ohos.patch:90-118 | batches overlaid in order, then the pending map, are the last update of every file, under any clock |
| Progress.NotifyDeliversEverything | patches/tailscale-ohos.patch:107-118 | after a notify the batches alone are the last updates |
| Progress.FinalStateIsDelivered | patches/tailscale-ohos.patch:90-118 | an update followed by a notify is always shown |
| Progress.BatchesAreFresh | patches/tailscale-ohos.patch:90-118 | a batch is never empty and holds only current values |
| Progress.HandoverIsExact | patches/tailscale-ohos.patch:90-118 | an update hands over a batch iff it is the first or a second has passed since the last one, a notify iff something is pending |
| Progress.BatchesAreAnIntervalApart | patches/tailscale-ohos.patch:90-105 | under a clock that does not run backwards, an update hands over nothing within a second of any earlier batch |
| Progress.OutgoingProgress.Update | patches/tailscale-ohos.patch:90-105 | the in-place update keeps the overlay equal to the last updates, and hands over everything pending iff a second has passed since the last batch |
| Progress.OutgoingProgress.Notify | patches/tailscale-ohos.patch:107-118 | the in-place notify empties the pending map into a batch, if it holds anything |
| HarmonyTun.HarmonyTunDevice.WriteTunPacket | native/go_bridge/harmony_tun.go:126-144 | the device gets the first `written` bytes in order and once each; no error means the whole packet; the first outcome after which writing cannot go on, a final error or no progress, decides the error, never a transient one |
| HarmonyTun.HarmonyTunDevice.ReadTunPacket | native/go_bridge/harmony_tun.go:109-120 | exactly what the descriptor answers once its transient interruptions are over, cut off at the end of the buffer; bytes before the offset stay |
| HarmonyTun.HarmonyTunDevice.Write | native/go_bridge/harmony_tun.go:83-107 | the payloads of the written buffers and a part of the next reach the device; never a short write; one write error per device failure |
| HarmonyTun.HarmonyTunDevice.Read | native/go_bridge/harmony_tun.go:65-81 | the packet the descriptor delivers is in the buffer, counted and observed, or there is none and one read error per device failure |
| HarmonyTun.HarmonyTunDevice.ObserveDNSPacket | native/go_bridge/harmony_tun.go:190-214 | counts exactly the DNS queries out, responses in and answers, reading in bounds for every byte string |
| HarmonyTun.TallyIsSum | native/go_bridge/harmony_tun.go:164-186 | the counters are sums over the packets that came through whole, modulo 2^64 |
| HarmonyTun.WrapIsModulo | native/go_bridge/harmony_tun.go:24-33 | what 64 bits keep of a count is its remainder modulo 2^64 |
| VpnRoutes.Build | native/go_bridge/vpnroute/routes.go:19-55 | a strictly sorted list of exactly the wanted routes, with the number that are not default routes |
| VpnRoutes.AddPeer | native/go_bridge/vpnroute/routes.go:26-43 | one peer adds its accepted primary routes and, if a selected exit node, its default routes |
| VpnRoutes.ListRoutes | native/go_bridge/vpnroute/routes.go:45-52 | listing the set in any order gives each route once and counts the non-default ones |
| VpnRoutes.BuildIsOrderIndependent | native/go_bridge/vpnroute/routes.go:27-55 | neither the order of the peers nor that of the set can be seen in the result |
| VpnRoutes.RoutesAreNetworks | native/go_bridge/vpnroute/routes.go:30-52 | a route attracts the addresses that share its prefix's leading bits; two prefixes become one route iff they attract the same addresses, and a route counts iff its prefix is not a default route |
| VpnRoutes.SortedListsAgree | native/go_bridge/vpnroute/routes.go:53-54 | a strictly sorted list is decided by its members |
| VpnRoutes.SearchStrings | native/go_bridge/vpnroute/routes.go:12-15 | the halving search finds the first route that is not less |
| VpnRoutes.Contains | native/go_bridge/vpnroute/routes.go:12-15 | on a list that Build returns, the search is set membership |

## Left out

- N-API/C++ bridge, cgo exports, ArkTS, build and device scripts, certificates, preference files, control-server probes: plumbing without an algorithm of its own.
- HTTP, TLS, WebDAV XML, tsnet and local-client calls, clocks, timeouts and context expiry: outcomes that may be anything, at any step.
- `setPhase`, `subnetRoutes`, `osVersion`, the receiver status and the interactive-login start: not fenced by server and generation in the source, so no invariant mentions them.
- The refresh mutex of `refreshMeshArcDevices`: any number of refreshes may run at once in the model; theorems hold without it.
- Servers are told apart by a number that is never reused, as their pointers are while a task holds one.
- LocalSendDebouncer.RefreshSettlesFailedPeer: stated on the history of accepted sweeps; assumes the refresh has time left for its second sweep and that no other sweep interleaves.
- Backend.BackendController.UpdateTaildropIncomingFiles: takes the summaries as already filtered and sorted by start time.
- Backend.BackendController.InstallSection: phase, state directory, OS version and receiver status are not modelled.
- Backend.BackendController.DetachSection: phase, subnet count and receiver status are not modelled.
- ProbeSweep.ProbeMeshArcDeviceItems: alias, fingerprint, device type and model of an item are not modelled.
- Sorting of device items: the list is taken in the order of the results.
- SHA-256 peer keys are taken as the peers' identities.
- ProbePool.NoWorkerBlocks: the workers' context is not modelled; a cancelled probe is one that fails.
- Error-string classifiers: one abstract distinction between transient and final errors, and the reason as a string.
- TaildropProofs.ActiveRecordStaysWithinTotal: a push that reads more than its file's size may exceed the total, and counts are not wrapped at 63 bits in that case.
- Request identifiers are distinct, and progress callbacks come only while their push runs, as the source assumes.
- Others may create and remove any file at any time but the temporary file of a transfer at work.
- TaildriveTransferTheorems.EveryFileIsWholeOrUnfinished: a crash is a dying process; what a power loss does to data that was not yet synced is not modelled, and syncing is one step that may fail.
- TaildriveClients.TaildriveClient.TaildriveUpload: the transport may read any number of bytes, so the bytes of a completed upload are not claimed to be the file's size.
- Symlink resolution and the sandbox checks on local paths; time stamps of transfer records.
- Parsing of a non-empty authority is an arbitrary verdict: `normalizeTaildrivePath` refuses every reference that has one, and hrefs are shown for plain hosts. Space around an href is taken as already trimmed.
- Two updates or notifies of the progress coalescer hand their batches over one at a time, in the order of their sections.
- Finite scripts of the VPN descriptor: after its script the descriptor fails for good, which is what makes the retry loops end. Closing the device and its event channel are not modelled.
- Prefix text: `netip`'s printing and parsing are parameters, assumed only to read back what was written. `sort.Strings` is replaced by an insertion sort on values, so the sort in place is not captured.
