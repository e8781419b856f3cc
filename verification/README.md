# Verification of sandbox-manager

A Dafny 4.11 model of the concurrent core of sandbox-manager, and proofs about it. `dafny verify dfyconfig.toml` checks everything.

The manager keeps a Redis projection (records, one quota slot per user, index sets, an event channel per user) in step with VMs that boot late, die, or do not answer, while the manager itself may crash at any point.

## How it is built

- **Store.** `Records.dfy` has the record type and the time constants. `StoreSpec.dfy` has each Redis script as one function on the store value, with coherence and replay of the event channels. `Store.dfy` is the store object, whose methods update its fields and are tied to those functions.
- **Concurrent machine.** `Lifecycle.dfy` is a machine with any number of Create, Delete, Reconcile, SSH, AttachDevice and CleanupStopped threads, cut at every Redis, containerd and relay call, plus a clock, VM deaths, a manager crash and VM starts that outlive it. Every Redis call may fail, and a write may take effect and still report an error. `LifecycleInvariant.dfy` proves the invariant step by step with one rely relation (`Later`); `LifecycleEffects.dfy` says what one action has to do with each way things can go wrong; `LifecycleRecords.dfy` says what a running record tells; `LifecycleTheorems.dfy` draws the guarantees over every reachable state and every run; `Witnesses.dfy` has runs that reach each exception.
- **Sequential service.** `ReconcileSpec.dfy` and `SshPassSpec.dfy` say what a whole Reconcile pass amounts to; `Service.dfy` is the service object with its loops, proved against them. `Outcomes.dfy` writes out what that specification comes to, in states, times and answers. `SoloRuns.dfy` shows that an uninterrupted thread of the machine does what the sequential specification says, `SoloCalls.dfy` what whole calls come to, and `SlotHealing.dfy` applies a pass to any state the machine reaches.
- **Relay.** `RelaySpec.dfy` and `Relay.dfy`: the port allocator. `Sessions.dfy`: the accept loop, the pipes and the close of one listener.
- **Admission.** `Admission.dfy`, `AdmissionProofs.dfy`, `Gate.dfy`: the locked counter beside the non-atomic scan, and the memory budget in 64-bit arithmetic; `Overcommit.dfy`: where the maximum is first exceeded; `AdmissionExact.dfy`: when exactly a create is admitted.
- **Images.** `Unpack.dfy`: the shared rootfs unpack. `HomeDisk.dfy`: shrink, grow and creation of a home image, with a trace of every step boundary; `HomeHistory.dfy`: any sequence of such calls, cut short by crashes anywhere.

## What the proofs show about the code

**Attaching a device** (`internal/service/service.go:249-258`) reads a record and later stores the copy without looking at what is stored by then. Every other writer only moves a record onward, from `creating` to `running` to its end; a stale attach is the one step that moves it back, and it does so exactly when the copy's state is behind the stored one (`LifecycleTheorems.SetBackExactly`, `StoreSpec.StalePutSetsBack`), which the attach could check. With every answer a success it can then happen that

- a deleted, terminating or failed sandbox becomes `creating` or `running` again: exactly when a live copy is stored over a record that is gone or no longer live (`LifecycleTheorems.NeverRunsAgain`, over every run, and `StoreSpec.StalePutRevives`). That the id still owns the slot is not enough (`StoreSpec.SlotDoesNotProtect`), since a Delete keeps the slot held on purpose;
- a listener stays open for a deleted sandbox (`Witnesses.StaleAttachLeavesListener`);
- a boot commits in the middle of its own Delete, which then erases the record and slot of a live VM, so that the user's next Create gives the user two live VMs (`Witnesses.StaleAttachLeavesVm`, `Witnesses.TwoLiveVms`).

Besides that, of four promises it is proved over every run at which step exactly each is first broken:

- *A concurrent delete cannot leave a listener* (`docs/cloud-ssh.md`, Lifecycle) fails exactly at a step that takes the record out of `running` under an open listener nobody attends, with no Close ahead: the delete script erases a record that still reads `running`, an attach stores a copy read in another state, or the mark of a Delete takes effect but is reported as failed, so that the Delete returns (`LifecycleTheorems.LeakBeginsExactly`, `ListenersOnlyForRunning`). Behind it is always one of three causes (`LifecycleTheorems.DropsExplained`): an attach has set the record back; a write took effect unreported (`Witnesses.HiddenMarkLeavesListener`); or `teardownDead` could not store the error, logged that and went on (`internal/service/service.go:426-431`; `Witnesses.FailedPutLeavesListener`).
- *A live VM whose Create is over owns its user's slot, so a user has one live VM* fails exactly when the teardown of a refused commit leaves a slotless VM alive (`internal/service/service.go:210-220`; `Witnesses.OrphanExists`), when the delete script runs over a live VM, which has then been left behind or set back by an attach (`Witnesses.StaleAttachLeavesVm`), when the manager crashes while a slotless VM is in flight, or when a start outlives the manager and the slot (`LifecycleTheorems.OrphanBeginsExactly`, `LiveVmsKeepSlots`, `LiveVmsOwnSlots`).
- *A creating or running record owns its user's slot, so a user has one such record* fails exactly when `failCreate` releases the slot under a record that is still, or again, live (`internal/service/service.go:164-173`; `Witnesses.StrandedBesideAnother`), or when an attach brings a dead record back whose slot is gone (`LifecycleTheorems.SlotlessBeginsExactly`, `LiveRecordsKeepSlots`, `OneLiveRecordPerUser`).
- *Running and admitted VMs stay within the maximum* fails exactly when a VM start that was under way when the manager was replaced completes on a full host, or when a check that missed such a VM admits one more (`Overcommit.OvercommitBeginsExactly`, `MaximumHolds`); a run under every configuration is `Overcommit.RestartOvercommits`.

Two smaller observations. The record a commit stores has no device, whatever an attach has stored while the sandbox was booting (`LifecycleRecords.CommitStoresExactly`). And admission counts a VM that has started and whose create is still open twice, so it can refuse a create although a place is free, never the other way round (`AdmissionExact.CountedTwice`, `StartedVmCountsTwice`).

`PurgeUserIndexes` is safe exactly when the user has no record left (`StoreSpec.PurgeCoherent`).

In `internal/userhome/userhome.go`, over every history of calls, failing tools and crashes: the image is there unformatted exactly when some creation stopped after the file existed and before it was formatted or removed, and the user's data has not been deleted since (`HomeHistory.UnformattedExactly`). No later call heals it (`OnlyRemovalHeals`), and every successful one hands it out; after one that got as far as truncate, which fails, the next of that size succeeds (`UnformattedIsHandedOut`). And the filesystem is smaller than its file exactly when some grow or shrink stopped between its two steps and none has gone through since (`SmallExactly`); a call for the size the file already has does not complete it (`SmallIsHandedOut`).

## Model

| member | source | states |
|---|---|---|
| StoreSpec.PutCoherent | internal/store/store.go:163-185 | a Put keeps all, active, user sets, slots and replayed channels in agreement with the records exactly when it does not change the record's user |
| StoreSpec.PutRunningCoherent | internal/store/store.go:187-214 | the commit script touches no index set and none needs touching; it either commits `running` or changes nothing |
| StoreSpec.ReserveCoherent | internal/store/store.go:324-346 | reserving a slot with its creating record keeps the projection coherent |
| StoreSpec.ReleaseCoherent | internal/store/store.go:357-361 | freeing a slot only for its owner keeps the projection coherent |
| StoreSpec.EraseCoherent | internal/store/store.go:238-258 | the delete script keeps the projection coherent, also when the record is already gone |
| StoreSpec.PurgeCoherent | internal/store/store.go:278-282 | purging a user's indexes keeps the projection coherent if and only if the user has no record |
| StoreSpec.PurgeRemoves | internal/store/store.go:278-282 | whatever the store looked like, the user's set and slot are gone and nothing else |
| StoreSpec.ActiveIndexExactly | internal/store/store.go:163-185 | the active index is exactly the creating, running and terminating records |
| StoreSpec.AttachExactly | internal/service/service.go:245-259 | an uninterrupted attach changes device and activity time of one record and nothing else |
| StoreSpec.CallCoherent | internal/store/store.go:166-361 | of every store call: it keeps the projection coherent if and only if it is not a purge that meets a record |
| StoreSpec.EveryHistoryCoherent | internal/store/store.go:166-361 | after any history of store calls, late delete scripts and purges of users without records among them, the indexes are exact, slots name records of their user, and replaying a channel from the empty map yields the user's records |
| StoreSpec.StalePutRevives | internal/service/service.go:245-259 | storing a live copy makes no dead record live if and only if the stored record is still there and live |
| StoreSpec.StalePutSetsBack | internal/service/service.go:245-259 | storing a copy sets no record back if and only if the stored state is not past the copy's |
| StoreSpec.StalePutKeepsSlots | internal/service/service.go:245-259 | storing a live copy keeps "live records own their slot" if and only if the id still owns the slot |
| StoreSpec.SlotDoesNotProtect | internal/service/service.go:245-259 | a copy read before a Delete marked the record turns it from terminating back to running while its id owns the slot |
| StoreSpec.StaleAttachRevives | internal/service/service.go:245-259 | a copy read before a delete and written after it brings the record back as running beside a new slot owner |
| Stores.FoundIsExact | internal/store/store.go:305-322 | a listing returns each wanted record once and nothing else, in whatever order ids come |
| Stores.ListedForUser | internal/store/store.go:305-322 | a user's index set lists exactly the records of that user |
| Stores.Store.Put | internal/store/store.go:166-185 | the fields end as the Put script leaves them |
| Stores.Store.PutRunning | internal/store/store.go:189-214 | commits exactly when the slot is owned and the record still creating |
| Stores.Store.Delete | internal/store/store.go:239-258 | removes record, port, indexes and the owned slot, or nothing when there is no record |
| Stores.Store.ReserveUserSlot | internal/store/store.go:327-346 | succeeds exactly when the slot is free, and then stores record, slot and indexes at once |
| Stores.Store.ReleaseUserSlot | internal/store/store.go:359-361 | frees the slot only for its owner |
| Stores.Store.PurgeUserIndexes | internal/store/store.go:280-282 | drops the user's set and slot, whoever holds it |
| Stores.Store.Read | internal/store/store.go:315-320 | the loop finds the records of the readable ids, in some order |
| Stores.Store.List | internal/store/store.go:306-322 | for a coherent store, each wanted record whose read does not fail exactly once and nothing else, in some order of the id set |
| LifecycleInvariant.NextKeepsInv | internal/service/service.go:78-474 | every step of every interleaving, every VM death and every crash keeps the whole invariant |
| LifecycleInvariant.ThreadKept | internal/service/service.go:316-347 | what a thread knows from stale reads survives every step of the others |
| LifecycleInvariant.MissingMoves | internal/service/service.go:384-398 | healing a slot whose record vanished between two reads releases nothing that another sandbox owns |
| LifecycleTheorems.ProjectionCoherent | internal/store/store.go:166-346 | coherence and channel replay in every reachable state |
| LifecycleTheorems.OrphanBeginsExactly | internal/service/service.go:198-347 | of all actions exactly four kinds make a live VM whose Create is over slotless; the delete script does so only to one left behind or set back by an attach |
| LifecycleTheorems.LiveVmsKeepSlots | internal/service/service.go:198-347 | over every run a live VM whose Create is over owns its slot at all times if and only if no action of the run is one of these |
| LifecycleTheorems.LiveVmsOwnSlots | internal/service/service.go:198-347 | of two live VMs of one user one is in flight or slotless, and a slotless one was left behind or set back by an attach |
| LifecycleTheorems.LeftExplained | internal/service/service.go:210-220 | a VM is left behind exactly by an unconfirmed late-boot cleanup, a crash that finds it slotless, or a start that outlives the manager |
| LifecycleTheorems.SlotlessBeginsExactly | internal/service/service.go:135-173 | of all actions exactly two kinds make a creating or running record slotless |
| LifecycleTheorems.LiveRecordsKeepSlots | internal/service/service.go:135-173 | over every run a live record owns its slot at all times if and only if no action of the run is one of these |
| LifecycleTheorems.OneLiveRecordPerUser | internal/service/service.go:135-173 | of two live records of one user one is slotless; unless an attach set it back, a live record is slotless exactly when it is stranded |
| LifecycleTheorems.OtherExceptionsExplained | internal/service/service.go:164-173 | the exact action from which a record counts as stranded, unpersisted, unsure or stale |
| LifecycleTheorems.SetBackExactly | internal/service/service.go:245-259 | of all steps exactly the Put of an attach whose copy is behind moves a record back |
| LifecycleTheorems.RecordsMoveOnward | internal/store/store.go:187-214 | over every run a record that is not set back only moves from creating to running to its end |
| LifecycleTheorems.NeverRunsAgain | internal/store/store.go:187-214 | an id that was deleted or left creating uncommitted is live again at some point of a run if and only if an attach of that run stores a live copy over it |
| LifecycleTheorems.ReapersWaitForDeadlines | internal/service/service.go:354-367 | a creating record is torn down, and a container reaped, only after the deadline of its Create |
| LifecycleTheorems.ReaperPassesExactly | internal/service/service.go:354-367 | a reaper goes on exactly for a dead sandbox that was running, or creating or terminating and last active at least five minutes ago |
| LifecycleTheorems.SweepPassesExactly | internal/vm/manager.go:518-555 | the sweep goes on exactly for a container at least ten minutes old whose VM does not run |
| LifecycleRecords.RunningRecordsTellTruth | internal/service/service.go:198-222 | in every reachable state a running record has the address its VM booted with, the user of its Create, and an activity time between that Create's start and now |
| LifecycleRecords.RunningSandboxesAreSeen | internal/service/service.go:478-491 | so reconcileSSH sees every running sandbox whose VM got an address, at that address |
| LifecycleRecords.CommitStoresExactly | internal/service/service.go:207-222 | the record a commit stores, field by field |
| LifecycleTheorems.TeardownNeverRacesCommit | internal/service/service.go:416-434 | once a teardown is past its check, no further run makes the sandbox running unless an attach sets its record back |
| LifecycleEffects.StepSlotEffects | internal/service/service.go:198-347 | of every step: which make a live VM, and which a live record, slotless |
| LifecycleEffects.StepEffects | internal/service/service.go:325-333 | of every step: each exception, each setting back and each revival has exactly its named causes; what takes a record out of running has its Close ahead or drops it; every opened listener stays attended |
| LifecycleTheorems.LeakBeginsExactly | internal/service/service.go:509-518 | a listener becomes stray and unattended exactly at an action that drops its running record while nobody attends it |
| LifecycleTheorems.ListenersOnlyForRunning | internal/service/service.go:509-518 | over every run a stray listener is attended by a thread that will close it or re-read the record, if and only if no action of the run is such a drop; so without one, at rest listeners are only for running sandboxes |
| LifecycleTheorems.DropsExplained | internal/service/service.go:422-434 | a running record is dropped only in a teardown whose error was not stored, after a write whose success went unreported, or once an attach has set the record back |
| LifecycleTheorems.LeaksHaveThreeCauses | internal/service/service.go:486-518 | in every reachable state an unattended stray listener belongs to such a sandbox |
| Witnesses.FailedPutLeavesListener | internal/service/service.go:422-433 | from every quiescent state with a running sandbox, a run whose error Put fails ends quiescent with an unattended stray listener |
| Witnesses.HiddenMarkLeavesListener | internal/service/service.go:325-330 | from every quiescent state with a running sandbox, a Delete whose mark takes effect but reports an error ends with an unattended stray listener |
| Witnesses.StrayListenerExists | internal/service/service.go:416-434 | from an empty store a quiescent state with such a listener is reachable |
| Witnesses.OrphanExists | internal/service/service.go:198-220 | a delete racing a late boot can leave a live VM without record or slot |
| Witnesses.StaleAttachLeavesListener | internal/service/service.go:249-258 | from every quiescent state with a running sandbox, a run of successes with an attach across a Delete ends with an unattended stray listener of an erased sandbox |
| Witnesses.StaleAttachLeavesVm | internal/service/service.go:249-258 | from every quiescent state with a free slot, a run of successes ends with a live VM without record or slot |
| Witnesses.TwoLiveVms | internal/service/service.go:249-258 | after which the user's next Create makes two live VMs of one user |
| Witnesses.StrandedBesideAnother | internal/service/service.go:164-173 | from every quiescent state with a free slot, a failed create ends as a creating record without slot beside the user's next running sandbox |
| SlotHealing.NoSlotLeaks | internal/service/service.go:436-474 | from any reachable state, after a crash, one pass frees the slot of a holder that is definitely dead and past its grace, whatever vm.Delete returns |
| SoloRuns.SoloDelete | internal/service/service.go:316-347 | an uninterrupted Delete thread does to the store what the sequential specification says, closes the listener, and has VM and container gone if that could be confirmed |
| SoloRuns.SoloReap | internal/service/service.go:445-471 | an uninterrupted reap of one record does to the store what the sequential specification says, and touches VM and listener exactly for held errors and the known dead |
| SoloRuns.SoloAttach | internal/service/service.go:245-259 | an uninterrupted attach stores device and time on the current record and sets nothing back |
| SoloCalls.SoloCreate | internal/service/service.go:119-222 | an unobstructed Create ends with the slot, a live VM and its running record, all fields given |
| SoloCalls.SoloCreateFails | internal/service/service.go:164-205 | one whose disk, token or boot fails ends with an error record and the slot free |
| SoloCalls.SoloCreateRefused | internal/service/service.go:138-155 | one whose slot stays held ends without a trace |
| SoloCalls.FirstAndSecondTry | internal/service/service.go:122-155 | the record is stamped as it is built; a held slot leads to one second try, which reserves if the slot is free by then |
| SoloCalls.SoloUndo | internal/service/service.go:210-220 | a Create whose commit was refused and that can tear its VM down leaves neither VM nor record nor slot |
| SoloCalls.SoloMissing | internal/service/service.go:384-398 | an uninterrupted heal of a holder without record removes container and slot exactly if its VM is not live |
| SoloCalls.SoloSession | internal/service/service.go:539-586 | a session prepared for a running sandbox opens its listener and remembers the port |
| SoloCalls.SoloSessionRefused | internal/service/service.go:546-552 | for any other it ends without a trace |
| SoloCalls.SoloPassHeals | internal/service/service.go:478-492 | an uninterrupted pass closes exactly the listeners of sandboxes that are not running, leaked ones included |
| SoloCalls.SoloSweep | internal/vm/manager.go:518-555 | an uninterrupted sweep removes a container exactly if it is ten minutes old and its VM does not run |
| ReconcileSpec.RecordIsJudged | internal/service/service.go:445-471 | treating one record carries out its verdict, judged before the pass, and touches no other record |
| ReconcileSpec.EveryOrderReconciles | internal/service/service.go:440-474 | for every order of ids a pass ends in the same store, the per-record verdicts carried out |
| ReconcileSpec.RecordByRecord | internal/service/service.go:440-474 | held errors removed or left terminating, old unheld errors and the dead removed with slot, indexes and port, all else unchanged |
| ReconcileSpec.ReconcileIdempotent | internal/service/service.go:440-474 | a second pass with the same answers, in the order of its own listing, changes nothing and publishes nothing |
| ReconcileSpec.DeadHolderIsFreed | internal/service/service.go:339-347 | a definitely dead holder past its grace loses record and slot in one pass |
| ReconcileSpec.PassKeepsCoherent | internal/service/service.go:440-474 | a pass keeps the projection coherent |
| Outcomes.PassExactly | internal/service/service.go:440-474 | which records a pass removes, marks and leaves, in states, times and answers |
| Outcomes.PassFreesExactly | internal/service/service.go:440-474 | a pass frees exactly the slots whose holder it removes, and adds no record |
| Outcomes.GraceProtects | internal/service/service.go:349-367 | a sandbox that began to boot or stop less than five minutes ago comes out of a pass equal and with its slot, is listed as it is and counts against the quota |
| Outcomes.DeadRunningIsDropped | internal/service/service.go:354-367 | a running sandbox whose VM is definitely not live is removed at once |
| Outcomes.ListExactly | internal/service/service.go:270-285 | List changes the state alone, and exactly for the known dead |
| Outcomes.QuotaExactly | internal/service/service.go:138-155 | when a Create is refused, in states, times and answers |
| Outcomes.HealExactly | internal/service/service.go:374-406 | what the heal of a slot leaves, for every kind of holder |
| Outcomes.DeleteExactly | internal/service/service.go:316-347 | what a Delete leaves and publishes, with and without confirmation |
| Outcomes.TeardownPublishes | internal/service/service.go:416-434 | the teardown of a dead sandbox publishes its error, then its removal, and leaves no record |
| ReconcileSpec.QuotaIsExact | internal/service/service.go:138-155 | Create is refused for quota exactly when the holder is not known dead or is in its grace window, also for a legacy slot without a record |
| ReconcileSpec.ListAgreesWithReconcile | internal/service/service.go:261-286 | List shows a non-error record as error exactly when a pass would tear it down |
| Services.Service.FinishTeardown | internal/service/service.go:339-347 | the store is touched only when the VM is definitively gone |
| Services.Service.Delete | internal/service/service.go:316-334 | marks terminating, closes the listener, then tears down |
| Services.Service.TeardownDead | internal/service/service.go:416-434 | publishes the error, closes the listener, then tears down |
| Services.Service.ReconcileUserSlot | internal/service/service.go:374-406 | heals one slot as specified for each kind of holder; closes its listener exactly if it is an error or known dead, and hands it to vm.Delete exactly then or if it has no record and its VM is definitely not live |
| Services.Service.ReserveSlot | internal/service/service.go:138-155 | the one-per-user gate with its heal and single retry, and what the heal closes and kills |
| Services.Service.List | internal/service/service.go:261-286 | reports each listed record with dead VMs as errors, and changes nothing |
| Services.Service.ReconcileRecords | internal/service/service.go:440-471 | a coherent store ends with every verdict carried out; exactly the held errors and the known dead are handed to vm.Delete and lose their listener |
| Services.TouchedExactly | internal/service/service.go:445-471 | the sandboxes a pass touches are exactly the held errors and the known dead |
| Services.Service.ReconcileSSH | internal/service/service.go:478-507 | the listener half of a pass, for some order of the running sandboxes |
| Services.Service.CloseSSHUnlessRunning | internal/service/service.go:512-518 | keeps the listener exactly when the record is running |
| Services.Service.Reconcile | internal/service/service.go:440-474 | a whole pass: verdicts carried out, exactly the held errors and known dead handed to vm.Delete, and listeners only for running sandboxes at their current address |
| RelaySpec.PickIsBest | internal/sshrelay/relay.go:65-89 | the preferred port if in range, unused and bindable, else the least such port; none exactly when no port of the range is free |
| RelaySpec.EnsureMeetsPromise | internal/sshrelay/relay.go:44-90 | an unchanged target keeps its port, otherwise the best free port is opened; exhaustion exactly when none exists; other listeners untouched |
| RelaySpec.EveryRunLegal | internal/sshrelay/relay.go:46-124 | after any run of Ensure, Close and Retain all ports are distinct and in range |
| RelaySpec.DialableExactly | internal/sshrelay/relay.go:50-53 | the accepted targets as ranges of 32-bit numbers |
| RelaySpec.FreeExactly | internal/sshrelay/relay.go:65-83 | a port is free exactly if it can be bound and no listener has it |
| RelaySpec.RetainKeepsExactly | internal/sshrelay/relay.go:108-124 | a listener survives Retain, unchanged, exactly if its sandbox is kept at the same target |
| Relays.Relay.Candidates | internal/sshrelay/relay.go:69-75 | the preferred port if in range, then every port of the range in order |
| Relays.Relay.FirstFree | internal/sshrelay/relay.go:76-89 | the search among these finds the specified port |
| Relays.Relay.Ensure | internal/sshrelay/relay.go:46-90 | outcome and table are the specified ones |
| Relays.Relay.Close | internal/sshrelay/relay.go:93-104 | removes exactly this listener |
| Relays.Relay.Retain | internal/sshrelay/relay.go:108-124 | keeps exactly the listeners whose sandbox is kept at an unchanged address |
| SshPassSpec.PassAgreesWithStore | internal/service/service.go:478-507 | after a pass every running sandbox with a remembered port listens on exactly the stored port or not at all, in any order |
| SshPassSpec.PassCutsNothing | internal/service/service.go:478-507 | a listener on record is there unchanged after the Retain and after every part of the reopening |
| SshPassSpec.ReopenPrefersRemembered | internal/service/service.go:493-505 | the remembered port is taken if it can be had |
| SshPassSpec.ReopenTakesLeast | internal/service/service.go:493-505 | else the least free port is taken and remembered; if it cannot be stored there is no listener |
| SshPassSpec.ReopenRechecks | internal/service/service.go:509-518 | a listener opened for a sandbox that has stopped running is closed at once |
| SshPassSpec.ReopenLeavesAlone | internal/service/service.go:493-499 | without a free or a remembered port nothing happens |
| SshPassSpec.RestartRestoresPorts | internal/service/service.go:476-507 | from an empty relay, distinct bindable remembered ports in range are all given back, whatever the map order |
| Sessions.SessionsBoundedAndHeld | internal/sshrelay/relay.go:162-229 | at most 8 sessions; once close has returned every connection is closed or held by a thread that will close it |
| Sessions.NothingPublishedAfterClose | internal/sshrelay/relay.go:193-200 | once closed is set no upstream is published, over every further run |
| Sessions.ClosedListenerComesToRest | internal/sshrelay/relay.go:187-229 | after close every step brings the end nearer, some thread can always move, and at the end nothing is open |
| Sessions.SessionIsServed | internal/sshrelay/relay.go:173-201 | with fewer than eight sessions an accepted connection whose dial succeeds is joined to its guest, whatever others do meanwhile |
| Sessions.SessionIsRejected | internal/sshrelay/relay.go:173-183 | with eight, or once closed, it is closed without a session |
| Sessions.AcceptsWhileOpen | internal/sshrelay/relay.go:163-171 | the accept loop goes on as long as its socket is open |
| AdmissionProofs.ScanCountsTheRest | internal/vm/manager.go:557-584 | the non-atomic scan counts at least the running VMs that hold no pending slot, late starts aside |
| AdmissionProofs.CapacityNeverExceeded | internal/service/service.go:644-676 | running and admitted-and-pending VMs together never exceed MaxVMs in any run by more than the running ones whose start outlived their manager |
| Overcommit.OvercommitBeginsExactly | internal/service/service.go:644-676 | the maximum is first exceeded exactly by a late start on a full host, or by an admission whose scan missed a late start |
| Overcommit.MaximumHolds | internal/service/service.go:644-676 | over every run the maximum is ever exceeded if and only if one of these happens |
| Overcommit.RestartOvercommits | internal/service/service.go:644-676 | for every maximum and every configuration with memory to fill it, a manager replaced in the middle of a start leads to one VM too many |
| AdmissionExact.SlotsExactly | internal/service/service.go:649-655 | a check during which no VM starts or dies passes the count exactly if running VMs and open admissions, counted separately, are fewer than the maximum |
| AdmissionExact.AdmittedExactly | internal/service/service.go:656-676 | and then admits exactly if the memory read covers the reserve, all open budgets and its own |
| AdmissionExact.CountedTwice | internal/service/service.go:649-655 | the separate count is that of distinct VMs exactly while no started VM's create is open |
| AdmissionExact.StartedVmCountsTwice | internal/service/service.go:649-655 | a run in which one VM fills two places |
| AdmissionExact.MemoryExactly | internal/vm/manager.go:134-167 | what each size gets and is budgeted at, in MiB |
| AdmissionProofs.BudgetIsExact | internal/service/service.go:660-675 | pendingMiB is the exact sum of outstanding budgets, never underflows, covers each real allocation, and the requirement never wraps |
| AdmissionProofs.ReserveNeverTouched | internal/service/service.go:656-669 | with memory faulted in by release and no start outliving its manager, admitted boots never push the host below its reserve |
| AdmissionProofs.AllocationWithinBudget | internal/vm/manager.go:134-167 | the clamped allocation of a VM is within its budget and the per-VM cap |
| Gate.Gate.RunningCount | internal/vm/manager.go:560-584 | counts exactly the live containers, and fails exactly when a query fails |
| Gate.Gate.Admit | internal/service/service.go:644-676 | admits exactly when the machine's count and memory checks admit; an unreadable count or memory refuses and changes nothing |
| Gate.Gate.ReleaseSlot | internal/service/service.go:670-675 | moves both counters as the machine does |
| Unpack.OneUnpackAtATime | internal/vm/manager.go:200-236 | at most one unpack runs at a time, and a nil result means the image is unpacked |
| Unpack.WaiterHearsItsJob | internal/vm/manager.go:230-235 | over every further run a waiter gets the error of the job it joined |
| Unpack.VerdictIsTheUnpacks | internal/vm/manager.go:221-235 | over every run the job and each of its waiters say what the unpack returned |
| Unpack.LaterCallersAreAnswered | internal/vm/manager.go:210-215 | a caller that comes after a successful unpack is answered at once and starts none |
| Unpack.OnlySuccessUnpacks | internal/vm/manager.go:221-222 | the image becomes unpacked exactly by an unpack that succeeds |
| Unpack.LookExactly | internal/vm/manager.go:210-229 | a look returns nil on an unpacked image, joins the running job, or starts the only one |
| Unpack.CancelStopsNothing | internal/vm/manager.go:205-209 | over every run: without a caller's cancellation the same run is possible, with the same jobs, image and other callers at its end |
| Unpack.JobsComplete | internal/vm/manager.go:221-227 | a job can always move until its channel is closed, and nobody sets it back |
| HomeDisk.HomeImage.GrowDisk | internal/userhome/userhome.go:37-51 | the file never ends below its filesystem; success means both have the wanted size |
| HomeDisk.HomeImage.ShrinkImage | internal/userhome/userhome.go:68-97 | data stays within the filesystem and the filesystem within the file at every boundary; a shrink leaves 1.2 times the reported minimum |
| HomeDisk.HomeImage.ShrinkDisk | internal/userhome/userhome.go:120-128 | the image ends at the wanted size exactly when the shrink goes through, else its file is unchanged |
| HomeDisk.HomeImage.EnsureDisk | internal/userhome/userhome.go:130-170 | an existing image keeps its files and is never made smaller; success hands out an unformatted image exactly when one was already there, large enough, and an ungrown filesystem exactly when the file was already large enough |
| HomeDisk.ShrinksExactly | internal/userhome/userhome.go:68-97 | with working tools a shrink goes through exactly if the image is at least a MiB too large and 1.2 times the minimum fits |
| HomeDisk.EnsuresExactly | internal/userhome/userhome.go:136-170 | with working tools EnsureDisk succeeds with a formatted image of the larger size |
| HomeHistory.SoundForLife | internal/userhome/userhome.go:37-170 | over every history with crashes at any boundary the files fit their filesystem and the filesystem its file |
| HomeHistory.UnformattedExactly | internal/userhome/userhome.go:130-170 | over every history the image is there unformatted if and only if some creation stopped half-way and no deletion followed |
| HomeHistory.OnlyRemovalHeals | internal/userhome/userhome.go:130-170 | without a deletion some sequence of calls leads to a formatted image if and only if it is not a present unformatted one |
| HomeHistory.UnformattedIsHandedOut | internal/userhome/userhome.go:144-152 | every successful call hands an unformatted image out as it is, and after a call that got to truncate the next one succeeds |
| HomeHistory.SmallExactly | internal/userhome/userhome.go:37-97 | over every history the filesystem is smaller than its file if and only if some grow or shrink stopped half-way and none has gone through since |
| HomeHistory.SmallIsHandedOut | internal/userhome/userhome.go:144-152 | success hands out a small filesystem exactly when it was small and the file already large enough |
| HomeHistory.EveryStopPossible | internal/userhome/userhome.go:37-170 | each half-way stop can happen whenever the tools do their work |
| HomeDisk.HomeImage.PrepareHome | internal/service/service.go:177-187 | when preparing succeeds the file is the larger of old and target, or exactly the target when the shrink went through |

## Assumptions

- A pipeline or a script is one step. Reads succeed or fail; a write takes effect and succeeds, fails without effect, or takes effect and reports an error. In the sequential service all of them succeed.
- A commit has effect only before its Create's deadline. Ids are never drawn twice.
- A failed vm.Create leaves no VM; vm.Delete without error, or a definite "not live", means the VM is not running at that moment.
- An unpacked image stays unpacked while the manager lives. resize2fs never reports a minimum below what the files need, and a foreign disk tool that fails leaves sizes as they were.
- In the memory bound, nothing but sandbox VMs takes memory from the host, a VM has touched its memory by the time its slot is released, and no VM start outlives its manager.

## Left out

- LifecycleEffects.StepEffects: the Redis client sending a write again by itself after a lost reply is not modelled; a resent reservation can find its own slot and report it as held.
- LifecycleInvariant.NextKeepsInv: the loops of Reconcile and reconcileSSH appear as independent threads, one per record, which allows every interleaving of the loops and more; the heal inside Create is such a thread too.
- ReconcileSpec.EveryOrderReconciles: the order in which a pass publishes events is not compared.
- DeleteUserData and userhome.Delete: a loop of Deletes followed by PurgeUserIndexes, which is treated on its own.
- Relay.Connections: a filtered count of sessions.
- Real sockets, byte copying and the per-sandbox lock of PrepareSSH: only open and closed flags and the guarded steps are kept; the guest command is a step that may fail.
- HTTP routing, JSON, identity lookup, token minting, tier prices, host disk usage and the parsing of meminfo: plumbing.
- containerd, Kata, CNI, loop devices and the tools e2fsck, resize2fs, dumpe2fs and mkfs: foreign calls, present by their effect.
- Configuration loading and the rest of the repository: scripts, image, web pages.
