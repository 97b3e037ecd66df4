# Runner verification

A Dafny model of the crash and uncertainty protocols of the review runner, and of its exact
algorithms, with proofs. `dafny verify dfyconfig.toml` checks everything.

What is modelled, one module per component:

- **Configuration activation** (`Activation`, `ActivationRuns`, on the crash-prone directory of
  `Directory`). A directory is a durable map and a sequence of unsynced operations, any subset
  of which a power failure keeps; every system call may fail, fail after taking effect, or not
  return because the process died. The undo journal is proved to leave the live files
  all old or all new through any number of interrupted activations and recoveries.
- **Release order** (`ReleaseVersion`, `Text`). Release tags, precedence as in section 11 of
  Semantic Versioning 2.0.0, and the downgrade guard over any number of setups.
- **Watchdog channel** (`WatchdogPhase`). Supervisor and watchdog process as two objects with a
  pipe each way; writes fail or time out, waits end at any moment, and the child takes any
  number of turns between any two steps of the parent.
- **Docker** (`Daemon`, `SandboxDocker`, `CreateProtocol`, `ProfileRuntime`). One container name
  at a daemon where creates, starts and removals that were sent may take effect at any later
  time. Creating, removing, reconciling, the watchdog's cleanup, and the tombstone that fences
  a name.
- **Supervisor** (`AttemptJournal`, `LeaseGuard`, `Supervision`). The attempt journal on a
  crash-prone directory, the lease guard with its timer, and the main loop.
- **Profiles** (`ProfileStore`, `ProfileLifecycle`). The pending, active, completed and
  execution journals, the credential home, and every operation and recovery on them.
- **Codex stream** (`CodexStream`). The parser against a declarative grammar.
- **Review mediation** (`ByteText`, `ReviewMediation`). Line stepping, reading, searching,
  paging, cutting to a JSON budget, and the bounds evidence is held to.
- **Tar extraction** (`TarFormat`, `TarExtraction`, `TarWriter`). The extractor against a
  reference writer of ustar headers, with split paths, and of pax path records (pax
  Interchange Format, IEEE Std 1003.1).

How crashes and uncertainty read in the contracts. A primitive that returns `Died` ends the
process; callers return at once, so what a method ensures on every exit is what a crash at
that point leaves. `Directory.Image.May` is everything a power failure may leave at an entry.
Loops that retry for ever in the program take a number of rounds here, so their contracts
speak of every run up to any moment. An inspection at Docker is answered truthfully for some
moment, or not at all. Ghost counters (`faults`, `troubles`) count what went wrong at the disk,
the daemon, the watchdog's channel and the server, so that contracts can also say that nothing
fails without a cause.

Five things the proofs bring out:

- Recovery that finds no activation journal returns without a directory sync
  (internal/install/state.go:444-447). A journal whose removal was never synced can come back
  in a power failure during the next activation's preparation, beside backups that the
  preparation rewrote or tore, and undo to files of neither side.
  `ActivationRuns.NextActivationIsWholeIff` says exactly when the next activation is safe: no
  such journal says that one of its files existed. `ActivationRuns.UntornNextIsWholeIff` says
  it for power failures that tear no backup. Outcome tags are truthful in any case.
- Recovery of a profile operation whose journal holds no grant keeps the new grant in memory
  only (internal/profile/lifecycle.go:474-484) and invalidates the profile
  (lines 507-509). If that stops between forgetting the identity and removing the home, and
  the server next calls the operation stopped (lines 551-553), the journal is dropped and the
  home stays without an identity. It can happen exactly from a journal without a grant beside
  an active identity (`ProfileLifecycle.ComesApartIff`), in no other way
  (`ProfileLifecycle.Profile.Run`), and stays so exactly until an operation is carried through
  (`ProfileLifecycle.Profile.Operate`).
- Removing a profile journal that is already absent does not sync (internal/profile/store.go:265-270).
  After a removal whose sync failed, a home can be removed, or an execution reserved, while the
  removal may still be undone by a power failure: `ProfileStore.IdentityOutlivesHomeIff`,
  `ProfileStore.ReservationMeetsOperationIff`.
- `Disarm` releases its lock while Docker is asked (internal/sandbox/watchdog.go:224-246) and
  does not look at the create phase again. The child still never leaves with a create in
  flight, because it checks its own flag and then reads the end of the pipe.
- The mediator counts U+2028 and U+2029 as three encoded bytes where the encoder writes six
  (internal/codex/review_mediation.go:761-775); the budget is proved in the mediator's own
  measure.

## Model

| member | source | states |
|---|---|---|
| Activation.RemoveScratch | internal/install/state.go:549-559 | Removing backup and pending files touches no live file and no journal, and reports success only when none of them is left |
| Activation.FinishActivation | internal/install/state.go:494-509 | Says committed only when the journal's removal is durable, and never touches a live file; a failure before that leaves the journal's fate open in both directions |
| Activation.AbortJournal | internal/install/state.go:515-523 | Preserved is reported only if no crash can bring the journal back; otherwise the outcome is indeterminate; a backup is lost only once no crash can bring it back |
| Activation.PreparationError | internal/install/state.go:525-533 | Preserved is reported exactly if nothing failed, and then nothing is unsynced and no scratch file is left; live files and the journal are never touched |
| Activation.UndoOne | internal/install/state.go:460-483 | One live file is back to what its backup says, or absent if it did not exist; no other file moves |
| Activation.UndoAll | internal/install/state.go:459-487 | Cut short anywhere, each file is untouched or on its way to what its backup says, and journal and backups stay; success means every file is back, and needs every backup the journal speaks of |
| Activation.Recover | internal/install/state.go:443-492 | A nil result leaves exactly the old or exactly the new files and no journal in sight; if a journal was in sight, it leaves the old files and nothing that a crash could change; whatever the directory, what a nil result leaves is what the visible journal and backups say; every other exit keeps the state atomic so that a later recovery can do the same |
| Activation.Prepare | internal/install/state.go:388-404 | Backups hold the old contents, pending files the new ones, and nothing live or journalled changed at any point; cut short, nothing but saving, staging and tearing of scratch files went on |
| Activation.StageJournal | internal/install/state.go:408-418 | Nil means the journal is durable beside durable backups, so renaming may begin; until then the old files are the only ones a crash can leave; preserved means no journal can come back |
| Activation.InstallPending | internal/install/state.go:419-430 | While files are renamed one by one, whatever operations survive a crash can be undone to the old set |
| Activation.Commit | internal/install/state.go:419-441 | Wherever the renames stop, any crash leaves a recoverable state; the outcome is truthful, and activated means that nothing failed |
| Activation.ActivateLocked | internal/install/state.go:387-441 | Wherever the old files and no journal are in sight, durably or not: preserved means the live files are the old set, nil or committed mean they are the new set, and no crash undoes it; every exit, also by death, either leaves only scratch work behind or a state from which any crash and recovery yield one of the two sets; after a single fault, indeterminate without a journal in sight means the new set is in place and the journal still durable |
| ActivationRuns.PowerFailureIsAtomic | internal/install/state.go:387-509 | Whichever unsynced operations a power failure keeps, the atomic states are closed under it |
| ActivationRuns.RestartAndRecover | internal/install/state.go:443-492 | A power failure or a restart and then a recovery that returns nil leaves one of the two sets and no journal in sight, and never takes a settled set away |
| ActivationRuns.ActivateAndRecover | internal/install/state.go:387-492 | An activation with any number of interrupted recoveries after it ends in one of the two sets, or in one side of an earlier plan whose harmless journal came back; a definite outcome is what is found, whether or not the start was settled |
| ActivationRuns.RunSetups | internal/install/state.go:297-327 | Over any sequence of setups, each cut short anywhere and recovered, the files found are one of the sets in the lineage, whole, if no setup started beside a journal that could come back and says that one of its files existed |
| ActivationRuns.UnsyncedRemovalIsAtEnd | internal/install/state.go:494-500 | A finished activation whose journal was removed without a sync has the new set in place, no journal in sight, and the journal still durable |
| ActivationRuns.StaleJournalMixes | internal/install/state.go:443-447 | After a commit whose journal is still durable, if the sets can mix, some survivor of the next preparation can be recovered to a mixed set |
| ActivationRuns.NextActivationIsWholeIff | internal/install/state.go:387-447 | Over every exit of the next activation before its first sync, torn backups and dropped scratch included, and every power failure there: recoveries leave one side of the old plan if and only if no journal that could come back says that one of the files to replace existed |
| ActivationRuns.ActivateNext | internal/install/state.go:387-441 | Beside a harmless journal every exit of an activation has a truthful outcome and survives any power failure with one side whole |
| ActivationRuns.TornBackupMixes | internal/install/state.go:387-404 | A file that the old journal covers is being saved when the power fails: the journal comes back with a torn backup and recovery can put back neither the old nor the new file |
| ActivationRuns.NextAfterRollbackIsWhole | internal/install/state.go:387-492 | After a rollback no exit of the next activation at which no backup is torn can mix, whatever comes back |
| ActivationRuns.UntornNextIsWholeIff | internal/install/state.go:387-447 | After a commit the same holds if and only if the old journal is not durable or the two sides cannot be told apart by one new backup |
| Directory.Image.SurvivorIsPossible | internal/install/state.go:535-540 | What any power failure leaves at an entry is among what the model says it may leave |
| Directory.Disk.Reboot | internal/install/state.go:443-458 | A restart after a power failure sees one of the possible values at every entry, and nothing is uncertain any more |
| ReleaseVersion.RecognizedRenders | internal/install/state.go:26-26 | A recognized tag is the rendering of its parts, character for character |
| ReleaseVersion.RenderedIsRecognized | internal/install/state.go:26-26 | Every rendering of well-formed parts is recognized as those parts, so the language is exactly that of the pattern |
| ReleaseVersion.ParseReleaseVersion | internal/install/state.go:46-64 | Cutting, splitting and dropping build metadata yields the core and pre-release parts of the one tag the string renders |
| ReleaseVersion.NumeralOrder | internal/install/state.go:66-76 | Without leading zeros, length and then byte order is numeric order |
| ReleaseVersion.CompareNumericIdentifierOrders | internal/install/state.go:68-76 | The comparison has the sign of the numeric order and is zero only for the same numeral |
| ReleaseVersion.ComparePrereleaseIdentifier | internal/install/state.go:107-119 | Orders identifiers as section 11 does: numbers numerically, texts in ASCII order, numbers first |
| ReleaseVersion.ComparePrerelease | internal/install/state.go:79-105 | Orders pre-releases field by field with a proper prefix first and a release last |
| ReleaseVersion.CompareReleaseVersions | internal/install/state.go:29-44 | Fails exactly on malformed tags; otherwise its sign is precedence in both directions, and zero means the same core and pre-release |
| ReleaseVersion.PrecedenceIsTotal | internal/install/state.go:29-44 | Any two tags are ordered one way only, or are builds of one release |
| ReleaseVersion.PrecedenceIsTransitive | internal/install/state.go:29-44 | Precedence is transitive |
| ReleaseVersion.ValidateReleaseOrder | internal/install/state.go:603-623 | Accepts exactly newer releases and the identical archive of the same one; a malformed version on either side fails closed |
| ReleaseVersion.NeverOlder | internal/command/setup.go:326-336 | Over any number of guarded setups the installed release never gets older, and its archive changes only with a strictly newer release |
| WatchdogPhase.Child.Handle | internal/sandbox/watchdog.go:414-446 | A phase is acknowledged exactly when it is in sequence and fits the phase so far; anything else sends the child into cleanup with a create assumed in flight |
| WatchdogPhase.Child.Step | internal/sandbox/watchdog.go:397-477 | One turn takes at most one frame, and a disarm lets the child go only without a create in flight |
| WatchdogPhase.TurnAgrees | internal/sandbox/watchdog.go:393-478 | No turn of the child breaks the agreement with the parent |
| WatchdogPhase.AgreementMeans | internal/sandbox/watchdog.go:174-217 | While the parent holds a create in flight the child does too and takes that into cleanup; once it holds it finished the child knows exactly its container and no phase is on its way |
| WatchdogPhase.AcknowledgedIsSettled | internal/sandbox/watchdog.go:272-279 | Only the acknowledgement of the last phase counts; an older one settles nothing |
| WatchdogPhase.Lease.SendPhase | internal/sandbox/watchdog.go:265-288 | Success means the child processed exactly this phase last |
| WatchdogPhase.Lease.CreateStarted | internal/sandbox/watchdog.go:174-190 | Success means the create is in flight for both, and failure changes nothing the parent believes |
| WatchdogPhase.Lease.CreateFinished | internal/sandbox/watchdog.go:193-217 | Success means the child recorded exactly the reported container, has nothing in flight, and no phase is queued |
| WatchdogPhase.Lease.Disarm | internal/sandbox/watchdog.go:220-263 | Refused while the outcome of a create is uncertain; success means the child let itself be disarmed or cleans up, and with a create announced meanwhile only the latter |
| WatchdogPhase.Lease.Run | internal/sandbox/watchdog.go:174-288 | Over any interleaving a create the supervisor holds announced is in flight for the child, which has not been disarmed and waits for it in cleanup; once it holds an outcome, cleanup knows that container |
| Daemon.EventDrifts | internal/sandbox/docker.go:195-210 | Whatever happens unasked keeps the relation all client proofs rest on: containers come only from creates that were sent and go only by removals that were sent |
| Daemon.NobodyNewComes | internal/sandbox/docker.go:195-210 | Without a create on its way no other container appears, and the creates left never become more |
| Daemon.FenceHolds | internal/profile/runtime.go:383-454 | A fence stands whatever happens later, and only a stopped, mount-free tombstone can be behind it |
| SandboxDocker.StopOwned | internal/sandbox/docker.go:251-283 | Says gone only if the container no longer has the name, and orders nothing removed; it fails only over a request that got no good answer or a container that still runs or is not its own |
| SandboxDocker.RemoveOwnedWith | internal/sandbox/docker.go:242-295 | Success means confirmed absence; a removal is ordered of this container only, and only if the ownership test holds; without a request that got no good answer it fails only before a container that will not stop or is not its own |
| SandboxDocker.CleanUpSandbox | internal/sandbox/watchdog.go:665-717 | A clean end with a create in flight and no tombstone means the create landed and was removed; nothing is left under the name or to come; no container failing the ownership test was ever ordered removed; it refuses only a container that fails that test, or a confirmed one that never had the name; it goes on only while a create in flight was not seen, Docker did not answer, or the container would not stop |
| SandboxDocker.Create | internal/sandbox/docker.go:115-211 | Only a refusal proves that no create was sent, and it comes only before a taken name, a bad claim, or a request that got no good answer; success proves that the claim's own container holds the name |
| SandboxDocker.Reconcile | internal/sandbox/docker.go:214-236 | An absent reserved name stays uncertain; success leaves the name empty with nothing to come; it fails only as a removal does |
| CreateProtocol.CleanupIsWatched | internal/sandbox/watchdog.go:393-478 | Whenever the child goes into cleanup, its flag and container are right about what the daemon may still do |
| CreateProtocol.OneCreate | internal/sandbox/watchdog.go:174-190 | One create sent under an announced phase keeps channel and daemon in step |
| ProfileRuntime.Stop | internal/profile/runtime.go:325-381 | Success with no create unaccounted for bars the name, and no container that had it has it any more; a tombstone is refused and stays; an absent name is an error while a create may be in flight |
| ProfileRuntime.ReconcileCreate | internal/profile/runtime.go:384-454 | Nil means a stopped, mount-free tombstone holds the name that nobody was ever told to start or remove; every other exit keeps a closed name closed; as long as every request is answered, a free name is closed, and a credential container loses it unless it will not stop |
| ProfileRuntime.Place | internal/profile/runtime.go:218-240 | A create is sent only under an announced phase, and one that was never sent is reported finished |
| ProfileRuntime.Confirm | internal/profile/runtime.go:241-270 | The watchdog learns of the container before it is started |
| ProfileRuntime.Start | internal/profile/runtime.go:174-272 | Success means the operation's own container was started and runs, with exactly the home mounted; every definitive result leaves no create to come; a closed name refuses; it refuses and fails only for cause |
| ProfileRuntime.LaunchAndCleanUp | internal/profile/runtime.go:174-272 | Wherever a launch stops, a watchdog that ends its cleanup leaves the name empty or fenced |
| ProfileRuntime.CleanupSparesTombstones | internal/sandbox/watchdog.go:692-699 | Cleanup never orders a tombstone away |
| ProfileRuntime.Aftermath | internal/profile/runtime.go:383-454 | Once a name is closed no launch, stop, reconciliation, watchdog or delayed request ever puts anything but the tombstone under it |
| AttemptJournal.Store.Save | internal/attemptstate/store.go:141-188 | Success makes the new value the only one a crash can leave; an error leaves the old, the new, or both possible; invalid values change nothing |
| AttemptJournal.Store.Clear | internal/attemptstate/store.go:191-214 | Success makes the journal absent, durably so if it was there |
| AttemptJournal.Store.Load | internal/attemptstate/store.go:128-138 | Returns what is visible and rejects what does not decode without changing it |
| LeaseGuard.Context.Elapse | internal/supervisor/lease.go:29-46 | With time the context is dead by the deadline and within 45 seconds of the last timer reset |
| LeaseGuard.Guard.Renew | internal/supervisor/lease.go:69-121 | Success means that the lease the server granted is journalled and told to the watchdog, and that the timer runs out with it, or after 45 seconds if that is sooner; no heartbeat after an accepted result or under a dead context, a fired timer is never armed again, and the journal keeps the reserved name through any failure; it fails only for cause |
| LeaseGuard.Guard.Interlude | internal/supervisor/lease.go:48-67 | Any number of heartbeats at any point keeps the attempt tracked and changes the guard's state only in its lease |
| LeaseGuard.Guard.Reserve | internal/supervisor/lease.go:123-142 | Success means every journal a crash can leave holds the name, and the watchdog runs |
| LeaseGuard.Guard.CreateStarted | internal/supervisor/lease.go:144-162 | Success means authority is alive, the name is journalled and the watchdog holds the create in flight |
| LeaseGuard.Guard.Created | internal/supervisor/lease.go:164-182 | The name gives way to the container only after the watchdog confirmed it, which success has journalled for good; a failed save leaves either in the journal, and both track it |
| LeaseGuard.Guard.FinishWithoutCreate | internal/supervisor/lease.go:190-211 | The reservation is taken back only when nothing is or can come under the name, and stays pending if that could not be recorded |
| LeaseGuard.Guard.Complete | internal/supervisor/lease.go:213-226 | An accepted result ends heartbeats; a dead context delivers none and stays dead |
| LeaseGuard.Guard.Authority | internal/supervisor/lease.go:29-121 | Over any run of renewals, beats, deliveries, cancellations and time: dead from the deadline on and from 45 seconds after the last timer reset on, a fired timer is never armed again, and no heartbeat follows an accepted result or a dead context |
| LeaseGuard.StillTracked | internal/supervisor/lease.go:164-182 | Nothing that happens at the daemon makes a tracking journal stale |
| Supervision.PlaceSandbox | internal/supervisor/supervisor.go:390-407 | A create is sent only with the name in every surviving journal; an uncertain one keeps the reservation; success means that the container the journal names was created for this claim |
| Supervision.RunClaim | internal/supervisor/supervisor.go:359-432 | Wherever a claim stops, what exists or may come is tracked; success means that the claim's own container was created under its name and started, every request to Docker was answered well, the result was accepted and nothing is pending; with a dead context or an unready workspace nothing is even reserved; otherwise it fails only over a setback, a context that dies, or a container id that is not whole |
| Supervision.RunGuarded | internal/supervisor/supervisor.go:216-240 | Success means that the claim ran, its result was accepted, and name, watchdog and journal were cleaned up; an accepted result is only lost to a setback, a watchdog that left, or a container that will not stop |
| Supervision.Cleanup | internal/supervisor/supervisor.go:477-513 | Success means the name is empty with nothing to come, the watchdog was disarmed and the journal is gone; every failure keeps the journal and has a cause |
| Supervision.Recover | internal/supervisor/supervisor.go:248-308 | A reserved name is never resolved here; only a conflict counts, by one; only an accepted acknowledgement or the third conflict clears, and without disk faults each of them does |
| Supervision.Relaunch | internal/supervisor/supervisor.go:289-307 | Over any number of launches without disk faults there are at most three conflicts, and the third clears the journal |
| Supervision.Supervisor.Reconcile | internal/supervisor/supervisor.go:248-308 | Nil means no journal is left, so new work starts only then |
| Supervision.Supervisor.Attempt | internal/supervisor/supervisor.go:190-230 | A new claim starts with no journal and nothing under any earlier name, and keeps every name tracked; success means that the claim's own sandbox ran, and leaves no journal and nothing under its name; a claim that cannot be journalled blocks the supervisor; one whose lease is over never runs |
| Supervision.RunOnce | internal/supervisor/supervisor.go:160-243 | One round keeps every name tracked; a blocked supervisor does nothing and an invalid claim blocks it; success leaves no journal, and if there was a claim, its own sandbox ran and is gone |
| Supervision.NoOrphan | internal/supervisor/supervisor.go:359-411 | If a container exists or a create is outstanding, every journal a crash can leave names that attempt with its sandbox |
| Supervision.Serve | internal/supervisor/supervisor.go:160-308 | The same over any run with deaths, power failures, delayed requests and watchdogs |
| ProfileStore.Store.Invalidate | internal/profile/store.go:420-437 | The identity goes before the home, and success means both are gone for good; cut short by a death or a power failure, it leaves the identity without its home only if an earlier removal of the identity was not synced |
| ProfileStore.Store.Write | internal/profile/store.go:196-246 | Success makes the visible journals, with the new one, all that a power failure can leave; otherwise nothing changed, or the new one joins, unsynced, whatever a power failure might leave before |
| ProfileStore.IdentityOutlivesHomeIff | internal/profile/store.go:420-437 | A home removed without a sync can leave its identity behind after a power failure exactly if an earlier removal of the identity was not synced |
| ProfileStore.ReservationMeetsOperationIff | internal/profile/store.go:315-338 | A reservation cut short before its sync can stand beside an operation after a power failure exactly if the removal of that operation was not synced |
| ProfileLifecycle.Profile.Complete | internal/profile/lifecycle.go:596-612 | Reports exactly the outcome the journal stands for, once, and every request for the operation agrees with the earlier ones; without a runtime version nothing is sent |
| ProfileLifecycle.Profile.StopPending | internal/profile/lifecycle.go:614-643 | Success bars the operation's name against any container with credentials and has the watchdog disarmed; what was started there stays known |
| ProfileLifecycle.Profile.Launch | internal/profile/lifecycle.go:279-315 | The create intent is journalled first, and is taken back only when no create is unaccounted for; success means that the operation's own container runs on the profile's home |
| ProfileLifecycle.Profile.Authenticate | internal/profile/lifecycle.go:226-370 | Ready exactly if the grant is a subscription of the pinned version, the client was healthy and, but for a login, the identity was active before; ready also needs that the operation's own container ran; a wrong mode or version is reported as such before anything is touched; an error has a cause |
| ProfileLifecycle.RunNative | internal/profile/lifecycle.go:320-369 | Ready exactly if the version matched, a login worked, and status, preflight and status again were good; a rate limit and an expired login are reported only where a command said so |
| ProfileLifecycle.Profile.RejectBegin | internal/profile/lifecycle.go:542-586 | A grant for another operation changes nothing; a stopped one at most drops the journal and leaves identity and home as they were; a live one is journalled first and ends with both gone, once the server took it for stopped; so when no operation is left, identity and home are together unless they were apart and the server said stopped |
| ProfileLifecycle.Profile.Conclude | internal/profile/lifecycle.go:485-540 | Nil means the operation is over and marked completed, with identity and home together, and the server took what the journal stood for; a ready outcome whose home fails is given up in the journal before anything is sent, and then only a profile the server calls inactive will do |
| ProfileLifecycle.Profile.Recover | internal/profile/lifecycle.go:447-540 | Nil leaves no operation, and identity and home together if there was one; when an operation goes away they are apart if and only if they were apart before, with no grant journalled, and the server called it stopped; they come apart only from an operation without a journalled grant beside an active identity; an identity appears only from a journalled ready outcome |
| ProfileLifecycle.Profile.Report | internal/profile/lifecycle.go:170-222 | The operation is called ready exactly when the server confirmed it and the identity is active; otherwise it is called what it was, or, if it was ready, stopped by the server's word or failed for its home |
| ProfileLifecycle.Profile.Operate | internal/profile/lifecycle.go:88-224 | Nil means that the operation is over and marked completed, with identity and home together, for good, and that the server took it for stopped; it is called disconnected exactly if that was asked for, unsupported if the grant does not fit, and ready exactly if the identity of the grant is active by the server's word: then it is a subscription of the pinned version, was active before or logged in now, the client was healthy, and the operation's own container ran on the home; what authentication came to is given up only by the server's word or for a disk fault; a completed operation is not replayed; a reserved execution refuses and changes nothing; when no operation is left, identity and home are apart if and only if they were before, with no grant journalled, and nothing was done or the server turned the operation down; begun with everything synced, it keeps the invariants of whatever a power failure may leave at any exit |
| ProfileLifecycle.Profile.ReserveExecution | internal/profile/store.go:315-338 | Refused exactly while an operation is journalled or another execution is reserved, short of a disk fault or an invalid claim |
| ProfileLifecycle.Profile.ReleaseExecution | internal/profile/store.go:360-372 | Clears only the same claim's reservation, once the home held up, and touches nothing else |
| ProfileLifecycle.OneMoreReport | internal/profile/lifecycle.go:193-205 | Reporting what the journal stands for never improves on what was reported |
| ProfileLifecycle.CleanupKeepsBars | internal/sandbox/watchdog.go:692-699 | A watchdog's cleanup opens no barred name |
| ProfileLifecycle.HomeCanOutliveIdentity | internal/profile/lifecycle.go:474-509 | From any operation without a journalled grant beside an active identity: a recovery that is granted and stops inside the invalidation, then one for which the server says stopped, leave a home without an identity and no operation |
| ProfileLifecycle.ComesApartIff | internal/profile/lifecycle.go:447-553 | Two recoveries can take identity and home apart if and only if an identity is active and the journal, which holds no grant, is one the recovery accepts |
| ProfileLifecycle.Profile.TakeApart | internal/profile/lifecycle.go:485-553 | An execution of the methods themselves from any such journal: a granted recovery dies after the identity was forgotten, a stopped one then ends the operation, and the home stays |
| ProfileLifecycle.Profile.Run | internal/profile/lifecycle.go:88-224 | Over all runs, with deaths anywhere and power failures anywhere in calls that began with everything synced: an active identity is server-confirmed and has its home, which only a power failure under a journalled grant can take; with no operation journalled, identity and home exist together unless some operation began beside an active identity with a journal that held no grant; operation and execution exclude each other; reports never improve; no name holds anything but a tombstone |
| ProfileLifecycle.Profile.PowerFailure | internal/profile/lifecycle.go:88-224 | A power failure in a call that began with everything synced leaves a valid profile, and identity and home apart only if the call began that way or exposed |
| CodexStream.WrittenReads | internal/codex/parser.go:202-279 | Every event, written as JSON with any of the codes of its failure, is read as itself: phases, item fields, usage counts and failures |
| CodexStream.ReadIsSaid | internal/codex/parser.go:212-221 | Whatever an event is read as, its type, thread, item id, kind and text stand in the JSON |
| CodexStream.UnreadIff | internal/codex/parser.go:200-232 | An event is not read exactly if its type is none of the known ones or what its type needs is missing, empty or too long |
| CodexStream.FailureIsBlamed | internal/codex/parser.go:315-347 | A failure is the one whose code the value carries, or else the error object in its message; only a terminal failure is also judged by the words |
| CodexStream.UsageIsValidIff | internal/codex/parser.go:443-481 | Usage is accepted exactly if it is null or an object whose counts are whole numbers in range, three of which may be null; the three are told as they stand |
| CodexStream.ParseWritten | internal/codex/parser.go:166-299 | Parsing what a client wrote line by line tells what it said, and accepts it exactly if that follows the grammar |
| CodexStream.ShapeShrinks | internal/codex/parser.go:193-281 | Every well-formed beginning is reached from a shorter one by a line the parser takes |
| CodexStream.NowhereForGood | internal/codex/parser.go:193-281 | A line the parser rejects spoils every continuation |
| CodexStream.HasUnfinished | internal/codex/parser.go:429-436 | True exactly if some item was not completed |
| CodexStream.ClashIsUnfit | internal/codex/parser.go:238-256 | The table's checks reject exactly the item events that do not fit the turn so far |
| CodexStream.Accept | internal/codex/parser.go:205-279 | One line is taken exactly if the grammar continues with it, and names the failure otherwise |
| CodexStream.Parse | internal/codex/parser.go:166-299 | Succeeds exactly on bounded streams of the grammar whose last agent message is a result, and then tells the thread of its start, the usage of its end, that message, and the items and errors in order; a stream that stops short is told by the last classified failure it reported; a native failure comes from a turn that failed after a well-formed beginning |
| CodexStream.LastReportedIsLast | internal/codex/parser.go:286-291 | The failure told is that of the last line that reports one |
| ByteText.LinesTile | internal/codex/review_mediation.go:314-322 | Stepping from line to line partitions any bytes into as many newline-free lines as are counted |
| ByteText.BoundaryIsStart | internal/codex/review_mediation.go:388-400 | A place in encoded text lies between runes exactly if it is the end or a byte that can begin one |
| ByteText.ValidUtf8Iff | internal/workspace/tar.go:208-208 | Bytes are taken for UTF-8 exactly if they are the encoding of some runes: no overlong form, no surrogate, nothing beyond the last rune |
| ByteText.BoundedRunePrefixLen | internal/codex/review_mediation.go:388-400 | The longest prefix within the limit that keeps every rune whole |
| ReviewMediation.TruncateForJSONBudget | internal/codex/review_mediation.go:727-751 | Cuts exactly what does not fit, to the longest whole-rune prefix that leaves room for the marker |
| ReviewMediation.JsonLenIsWritten | internal/codex/review_mediation.go:753-775 | The length counted against the budget is that of the text as JSON writes it, escape by escape |
| ReviewMediation.Read | internal/codex/review_mediation.go:324-385 | Accepts a start line exactly if the file has that many lines, and shows the longest window of whole lines that was asked for and fits; of a first line that does not fit, the longest whole-rune prefix |
| ReviewMediation.SearchFile | internal/codex/review_mediation.go:279-305 | Finds the matching lines of a file in order, and stops only at a match for which count or bytes leave no room |
| ReviewMediation.Search | internal/codex/review_mediation.go:243-312 | What is found is a beginning of all matches, up to the first that count or bytes leave no room for or the first file that is too much to scan; it is marked truncated exactly if a match is missing or a text file was not scanned |
| ReviewMediation.EntryLenIsShown | internal/codex/review_mediation.go:289-298 | What a match counts against the limit is the length of the line that shows it |
| ReviewMediation.ContainsIff | internal/codex/review_mediation.go:283-283 | A line matches exactly if the query stands somewhere in it |
| ReviewMediation.AllMatchesAre | internal/codex/review_mediation.go:268-307 | All matches are exactly the lines, of the searchable files under the directory, that hold the query |
| ReviewMediation.AllMatchesInOrder | internal/codex/review_mediation.go:258-258 | They come path by path and line by line, none twice |
| ReviewMediation.Children | internal/codex/review_mediation.go:191-210 | Exactly the names below a directory, each marked a directory exactly if something is below it |
| ReviewMediation.StepIsBelow | internal/codex/review_mediation.go:188-206 | Exactly the paths below a directory lead to a child, by the first name on the way |
| ReviewMediation.EntrySizeIsShown | internal/codex/review_mediation.go:221-230 | What an entry counts against the limit is the length of the line that shows it |
| ReviewMediation.List | internal/codex/review_mediation.go:211-240 | A page is the stretch from the offset that count and bytes allow, and says truncated exactly if more follow |
| ReviewMediation.FollowPages | internal/codex/review_mediation.go:236-238 | Following the offsets shows every child once in order and ends |
| ReviewMediation.ValidateEvidenceRefs | internal/codex/review_evidence.go:204-218 | Accepts exactly evidence within text files of the snapshot |
| ReviewMediation.CitableIsReadable | internal/codex/review_evidence.go:124-126 | A line can be cited exactly if it can be read |
| ReviewMediation.ValidateCoverageFileSet | internal/codex/review_evidence.go:187-202 | Accepts exactly the planned files, each once |
| TarFormat.OctalReads | internal/workspace/tar.go:310-325 | A written octal field reads back |
| TarFormat.VerifyChecksum | internal/workspace/tar.go:291-308 | Accepts exactly headers whose field is their sum with the field blanked |
| TarFormat.Header.ReadsBack | internal/workspace/tar.go:43-80 | Every field of a written header reads back, prefix and checksum included |
| TarExtraction.PaxAttributes | internal/workspace/tar.go:221-261 | A path extension is accepted exactly if it is one record of the standard that sets the path, and gives that path; a global one exactly if it is empty or one comment |
| TarExtraction.DecodeIsSafe | internal/workspace/tar.go:41-102 | Whatever the bytes, the members stay below the destination and within both limits |
| TarExtraction.BuildIsExact | internal/workspace/tar.go:103-141 | Members can be placed exactly if they fit into the tree and no file is, or stands above, another member; the tree has then grown by exactly the members and the directories above them |
| TarExtraction.ExtractedIsUnique | internal/workspace/tar.go:103-141 | That determines the tree |
| TarExtraction.Destination.Extract | internal/workspace/tar.go:31-144 | Succeeds exactly if the archive decodes within the limits and its members are compatible with each other and with what is there, and then the tree has grown by exactly them; anything new is below the destination |
| TarWriter.RecordReads | internal/workspace/tar.go:221-261 | A written path record, whose length counts itself, reads back |
| TarWriter.RecordLengthIff | internal/workspace/tar.go:219-226 | A record length is accepted exactly if it is a number of up to six digits in its one decimal form |
| TarWriter.HeaderNamesHold | internal/workspace/tar.go:195-201 | A path of up to 100 bytes, or split at a slash, fills name and prefix so that they join to it again |
| TarWriter.MemberReads | internal/workspace/tar.go:41-141 | A written member reads back, and a path extension names exactly the next entry |
| TarWriter.MembersRead | internal/workspace/tar.go:41-141 | Written members are read first and in order, whatever comes after them |
| TarWriter.OtherKindsAreRefused | internal/workspace/tar.go:108-141 | An archive with a link or a special file anywhere is refused, whatever members come before it and whatever bytes after |
| TarWriter.OldKindIsRegular | internal/workspace/tar.go:112-112 | A file of the old kind is read as a regular one |
| TarWriter.OwnerExecutes | internal/workspace/tar.go:131-134 | A file becomes executable exactly if its mode lets the owner execute it |
| TarWriter.RoundTrip | internal/workspace/tar.go:31-144 | Decoding undoes the writer on every list of members within the limits, whether a path fits its field, is split between two, or takes an extension |
| TarWriter.ExtractWritten | internal/workspace/tar.go:31-144 | Extracting a written archive succeeds exactly if its members are compatible with each other and with what is there, and then the tree has grown by exactly them |

## Left out

- Real file systems: symbolic links, ownership, modes and locks are a call that succeeds or errs; lock exclusivity is assumed.
- Docker arguments, the Docker client process, HTTP, TLS and tokens: a daemon and a server that answer as they like within what the contracts say.
- The Codex container topology and its volume cleanup (internal/sandbox/watchdog.go:590-637), and execution through a composite executor: only the single-container path is modelled.
- Containers under other names: the daemon model holds one name; an id that never had it may answer to an inspection as a container of another name.
- Container ids are whole; the program also accepts abbreviated ones.
- A watchdog that cleans up after its lease ran out while its supervisor is still at work is modelled for the journal (`Supervision.Environment`), not step by step inside one launch.
- Frames of the watchdog channel are values, not text, and sequence numbers do not wrap.
- Timers fire as soon as they are due; clocks do not go back.
- The operator's `--discard-attempt`, which clears the attempt journal by design.
- ProfileLifecycle.Profile.Run: leaves out power failures in calls that began with something unsynced, because the invariants do not survive those: `ProfileStore.IdentityOutlivesHomeIff` and `ProfileStore.ReservationMeetsOperationIff` say exactly when.
- The entries of the credential home: it is there or not.
- Journals of a shape this program does not write (unknown fields, wrong types, hand edits) except where a torn or foreign activation or attempt journal is refused.
- Workspace paths, artifact upload, event delivery, logging, log rotation, the failure breaker and backoff.
- What the native client prints (internal/profile/native.go:122-212): the operations are given what it amounts to.
- JSON tokenising, the search for an error object in a message, and the result schema (internal/codex/parser.go:483-846): parameters of the parser; so is what a failure message speaks of.
- The diff operation, request decoding, the request budget and path validation of the review mediator (internal/codex/review_mediation.go:109-167, 402-631), and the fixed texts it adds to an answer.
- Sorting of paths is taken from the standard library: the sorted list is a precondition.
- Gzip decompression, and unwrapping of a snapshot's top directory (internal/workspace/tar.go:158-193, 340-392).
- TarExtraction.Destination.Extract: does not say what a failed extraction leaves behind beyond staying below the destination, because the caller discards it.
- ReviewMediation.TruncateForJSONBudget: speaks of valid UTF-8, for which alone the mediator calls it.
- Liveness: retry loops are proved right whenever they end, not to end.
