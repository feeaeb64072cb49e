# dockup: a verified model

dockup lets the Windows Docker CLI talk to a Docker engine that runs inside a WSL distro.  A helper process serves a
named pipe and bridges every connection to the engine; commands install the engine from a signed, cached image,
start and stop the helper, keep a small record of all this in `state.json` and `config.json`, and look after a Docker
context.  This project models the parts in which several actors or many steps can get in each other's way, and the
parsers and decoders whose answers the rest relies on, and proves what they promise.

Three kinds of model are used.

* The concurrent protocols (`Relay`, `Listeners`, `StateStore`, `Lifecycle`, `WholeSystem`) are state machines: a state, events,
  which events are enabled, and what an event changes.  A theorem about `Legal` runs therefore covers every
  interleaving, every timing and, where processes can crash, every crash.
* What works on files, a disk or a Docker installation in sequence (`ImageCache`, `InstallRoot`, `LogRotation`,
  `DockerContext`, `Reconcile`) is written as methods on objects, proved against functions of the old state; the disk
  records every state it goes through, so "at any crash" is a statement about its history.
* Loops over text (`WslList`, `WslMemory`, `Tasklist`, `Download`) are methods with invariants, proved against
  recursive or declarative specifications, and the round trips are lemmas about those specifications.

The modules:

| module | what it is about |
|---|---|
| `Relay`, `RelayInvariant`, `RelayTheorems`, `RelayRuns` | one bridged connection: handler, two copiers, shutdown killer, result channel, two timers, child process |
| `Listeners` | opening, serving and closing the pipes, and the accept loops |
| `StateStore`, `StateStoreProofs`, `StateStoreRuns` | the lock file and the atomic replacement of `state.json` |
| `Lifecycle`, `LifecycleProofs` | all transactions on `state.json` and what the commands do around them |
| `WholeSystem` | those commands on that store: every run of both together is a run of the commands |
| `ConfigFile` | `config.json`, written in place |
| `Reconcile` | dropping the install record when the distro is gone |
| `Disk`, `ImageCache`, `ImageCacheProofs` | the signed image cache over arbitrary files, answers, faults and crashes |
| `Base64`, `Signing` | publishing a release and accepting it |
| `WslList`, `WslListRoundTrip` | decoding and parsing the list of distros |
| `WslMemory` | the memory limit in `.wslconfig` |
| `Tasklist` | reading the process list |
| `LogRotation`, `DockerContext`, `InstallRoot`, `Download` | the smaller stateful algorithms |
| `StateFile`, `Text` | shared data and string functions |

## What was found

Some promises hold only under a condition.  The code was modelled as it is, and the condition is proved.

* `internal/relay/relay.go:217-219` says the gateway error is for a backend that dies before any output.  The handler
  kills the process itself before it waits for it, so a backend that closes its output cleanly without a byte can be
  reported as an error too (`RelayTheorems.CleanEmptyAnswerCanBecomeAnError`).  An empty exchange without a shutdown
  ends in the error exactly when the process had not exited successfully at the moment of that kill
  (`EmptyAnswerIsAnErrorExactlyWhen`).
* The lock of `internal/state/state.go:75-106` guards its holders exactly as long as no step removes the lock file of
  a live holder (`StateStoreProofs.GuardedExactlyWhenFair`).  While that is so at most one process is in the critical
  section (`SerialEquivalence`), and after the first step that is not so any idle process gets in beside the holder
  at its first try (`UnfairLetsAnotherIn`).  Holders that finish within 30 s and a stale lock removed in one step with
  its stat are enough (`StateJsonIsSerial`), and neither can be dropped (`SplitExpiryBreaksExclusion`,
  `SlowHolderBreaksExclusion`).
* `internal/daemon/daemon.go:177-180` says "stale pid repaired".  The transaction fails there, so `WithLock` drops the
  edit (`internal/state/state.go:102-104`) and nothing is repaired: every stop ever committed met a live daemon
  (`LifecycleProofs.CommittedStopsMetALiveDaemon`), and the case does arise (`StaleStopIsReached`).
* The mirror flag never claims a mirror the recorded daemon did not report.  The other direction can fail twice: a child
  that reports before its parent has saved its pid gives up (`LifecycleProofs.EarlyReportIsLost`), and one that finds
  itself recorded may then get no lock, or fail to save, and `cmd/dockup/main.go:810` discards the error
  (`UnsavedReportIsLost`).  The flag agrees with the report exactly when neither happened, or there was no mirror to
  record (`MirrorAgreesExactlyWhen`).
* A start that times out clears whatever record it finds, which may be another daemon's
  (`LifecycleProofs.TimeoutDisownsAnothersDaemon`).  It does what a compare-and-clear like doctor's would do exactly
  when the record at that moment is its own or none (`TimeoutErasesAnothersExactlyWhen`).
* A start whose warm-up fails kills whatever daemon is recorded, `internal/daemon/daemon.go:151-155`, which may be
  another's, while its own child goes on without a record (`LifecycleProofs.WarmFailKillsAnothersDaemon`); it kills its
  own exactly when the record is its own (`WarmFailKillsItsOwnExactlyWhen`).  If no start was saved after its own, a
  start finds its own record or none in both cases (`OwnRecordWithoutLaterSave`).
* `config.json` is written in place (`internal/userconfig/userconfig.go:121`) and its errors are mostly discarded.  An
  uninstall whose save is cut short leaves a file that cannot be parsed; the install root is then the built-in default,
  and a later prune does not find a cache kept elsewhere (`InstallRoot.TornSaveLosesTheCache`).  The root is kept
  exactly when the save was not cut short or the root was the default one (`UninstallKeepsRootExactlyWhen`).  In the
  same way distro reconciliation can lose all settings instead of the path alone (`Reconcile.PathIsDroppedExactlyWhen`),
  and `context use` can forget the previous context (`DockerContext.UseSavesExactlyWhen`).
* A list of distros in UTF-16 without a byte order mark is read back exactly unless the first name starts with U+FEFF
  (`WslListRoundTrip.BareUtf16RoundTripsExactlyWhen`).
* When `docker context show` fails during `context use`, an older saved name stays, and is the wrong one
  (`DockerContext.UnreadContextLeavesStaleName`, `RemembersExactlyWhen`).
* A failed image download leaves no part file, except a tarball part from an earlier crash
  (`ImageCache.StalePartOutlivesFailure`).  While the disk obeys, such a part outlives a failure exactly when the
  server offers no signed release; and the call fails exactly when there is no hit and the answers offer no signed
  release, or a changed one without its tarball (both in the contract of `ImageCache.EnsureWithKey`).

## Model

| member | source | states |
|---|---|---|
| `RelayInvariant.StepKeeps` | internal/relay/relay.go:227-328 | every step of handler, copiers, killer, child, clock or shutdown keeps the whole invariant of a bridge |
| `RelayInvariant.RunKeeps` | internal/relay/relay.go:227-328 | so does every run, in any interleaving |
| `RelayTheorems.OneVoice` | internal/relay/relay.go:246-323 | at any moment the client has a prefix of the backend's output, or a prefix of the gateway error and not one backend byte |
| `RelayTheorems.ErrorExactlyWhen` | internal/relay/relay.go:314-326 | the error is tried exactly when the spawn failed, or the stdout copier is done with count 0, Wait failed and no shutdown was requested |
| `RelayTheorems.CleanEmptyAnswerCanBecomeAnError` | internal/relay/relay.go:297-323 | a run in which a backend closes its output cleanly, is killed by the handler, and its client gets the error: the comment at lines 217-219 does not hold |
| `RelayTheorems.EmptyAnswerIsAnErrorExactlyWhen` | internal/relay/relay.go:300-323 | whatever happens after the handler goes to kill: an exchange that ends with count 0 and no shutdown is answered with the error if and only if the process had not exited successfully by then |
| `RelayTheorems.NoTruncation` | internal/relay/relay.go:263-300 | the process is killed only after its output was relayed, on shutdown, or after the grace period; without expiry or a broken copy the client has the whole output when the handler returns |
| `RelayTheorems.StdinHandedOn` | internal/relay/relay.go:272-276 | the backend's stdin is closed only after every byte read from the client was handed on, unless a write failed, and it never sees other bytes |
| `RelayTheorems.SendsNeverBlock` | internal/relay/relay.go:271-313 | a copier's send on the two-slot channel is always possible, happens once, outN is -1 exactly until the stdout result is received, and the last wait can deliver only that result |
| `RelayTheorems.BoundedTeardown` | internal/relay/relay.go:288-313 | when the handler returns the child is waited for, gone and the client are closed, and no more time has passed since the first result than 60 s, 10 s, Wait and the reply |
| `RelayTheorems.TimersRunInFull` | internal/relay/relay.go:290-313 | the grace period is not cut short, and the handler gives up on the stdout result only after both timers |
| `RelayTheorems.ShutdownReaps` | internal/relay/relay.go:252-262 | after a shutdown request the killer can always go on, and when it is done the child was killed or has exited |
| `RelayTheorems.HandlerStepsAreBounded` | internal/relay/relay.go:227-328 | whatever the others do, the handler takes boundedly many steps |
| `RelayTheorems.NeverStuck` | internal/relay/relay.go:288-328 | after the first result the handler can step, or waits for a timer or a killed child |
| `RelayTheorems.DrainAdvances` | internal/relay/relay.go:256-280 | after the return nothing more is relayed either way, and every move of a goroutine brings it closer to its end |
| `RelayTheorems.DrainNeverStuck` | internal/relay/relay.go:256-280 | until all three goroutines have ended one of them can move: none leaks |
| `RelayRuns.OutputCanBeDelivered` | internal/relay/relay.go:277-280 | from any state in which the stdout copier works and the child is not waited for, a client that reads can be given all the backend has written, by the copier alone and without a fault |
| `RelayRuns.InputCanBeHandedOn` | internal/relay/relay.go:272-276 | and whatever a client sends can be handed on |
| `RelayRuns.ReadFaultEndsTheCopy` | internal/relay/relay.go:277-280 | a read from the backend that fails ends the copy, and the bytes that got through are its result |
| `RelayRuns.WriteFaultEndsTheCopy` | internal/relay/relay.go:277-280 | so does a write to the client that fails |
| `RelayRuns.InputFaultEndsTheCopy` | internal/relay/relay.go:272-276 | and a write to the backend that fails, which closes its stdin |
| `RelayRuns.ExchangeIsRelayed` | internal/relay/relay.go:227-328 | for any request and any answer there is a run in which both arrive whole, the backend's stdin is closed, nothing is killed or faults, and the bridge is gone when the backend is |
| `RelayRuns.ErrorIsRelayed` | internal/relay/relay.go:220-249 | a client whose backend cannot be spawned is given the HTTP 500 text, whole |
| `RelayRuns.StuckClientIsLeftAfterBothTimers` | internal/relay/relay.go:288-328 | a client that reads nothing is left after exactly 60 s and 10 s, without the error |
| `RelayRuns.ShutdownIsQuiet` | internal/relay/relay.go:252-318 | a bridge in flight at a shutdown kills its child at once, waits for it, and tells the client nothing |
| `Listeners.StepKeeps` | internal/relay/relay.go:131-215 | every step of ServeEx, an accept loop or the caller keeps the invariant |
| `Listeners.ServeExPromises` | internal/relay/relay.go:160-215 | a client is accepted only after the mirror was reported, truthfully; what is served stays open until a cancel; every accepted client has its bridge, but for at most one per loop that is about to start; after the return nothing is open and all loops were told to stop; it returns without error only when cancelled |
| `Listeners.LoopsEnd` | internal/relay/relay.go:136-150 | after the return no client is accepted; a loop waiting in Accept is moved only by the failure of that Accept, which ends it, a loop about to start a bridge only by starting it, and both are possible at once |
| `Listeners.LoopStepsAreBounded` | internal/relay/relay.go:131-151 | however a run goes on after the return, the loops take at most six more steps together, and when none is left every accepted client has its bridge and every loop has ended |
| `Listeners.ServesWhatThereIs` | internal/relay/relay.go:160-214 | its own pipe is served, the mirror if docker's pipe is another and free, of which the callback is told, and TCP if it is on; a mirror that is taken is no failure |
| `Listeners.ClientGetsItsBridge` | internal/relay/relay.go:136-149 | a client that comes then gets a bridge, and the next one can come |
| `Listeners.FailedAcceptIsRetried` | internal/relay/relay.go:138-147 | a failing Accept while it serves is tried again |
| `Listeners.FailsExactlyWhen` | internal/relay/relay.go:160-207 | it fails for a port out of range with TCP on, and when its own pipe or the TCP address is not to be had, and for nothing else |
| `Listeners.CancelClosesAtOnce` | internal/relay/relay.go:131-142 | once cancelled a served listener can be closed, and its loop then ends at the next Accept |
| `Listeners.CancelEndsIt` | internal/relay/relay.go:176-214 | cancelled, it returns with everything closed |
| `StateStoreProofs.GuardedExactlyWhenFair` | internal/state/state.go:75-97 | over any run, every holder owns the lock file it made if and only if no step removes the file of another live holder |
| `StateStoreProofs.UnfairLetsAnotherIn` | internal/state/state.go:80-97 | after a step that is not fair any idle process gets into the critical section beside the live holder at its first try |
| `StateStoreProofs.SerialEquivalence` | internal/state/state.go:57-106 | then state.json is always the committed edits in lock order, failed or crashed ones contribute nothing, at most one process is in the critical section, and every Load sees a committed state |
| `StateStoreProofs.EditsKeep` | internal/state/state.go:97-105 | what every edit keeps holds of every state ever read |
| `StateStoreProofs.TimelyRunsExclude` | internal/state/state.go:87-97 | holders within 30 s and one-step expiry of stale locks make every removal fair, whoever crashes |
| `StateStoreProofs.StateJsonIsSerial` | internal/state/state.go:41-106 | from the empty directory, under these two assumptions: exclusion, serial equivalence and lock-free reads without torn or aborted states |
| `StateStoreProofs.StaleLockIsRecovered` | internal/state/state.go:80-91 | a stale lock can be taken by any caller in four steps of its own, and fairly |
| `StateStoreRuns.CallMakesItsEdit` | internal/state/state.go:75-106 | a call that finds the lock free edits what a reader would find, and a reader then finds that; if its edit fails everything stays; the lock is free again and nobody else is touched |
| `StateStoreRuns.HolderCanFinish` | internal/state/state.go:97-105 | whatever goes wrong, a holder can finish in two steps of its own and leaves the lock free and the file as it was |
| `StateStoreRuns.GivesUpOnlyLate` | internal/state/state.go:79-95 | over every run, a call gives up only after it has waited for more than 15 s |
| `StateStoreRuns.WaiterTriesAgain` | internal/state/state.go:80-95 | until then it tries again after 0.1 s and gets the lock if it is free; after that it gives up |
| `StateStoreRuns.TakenMeansWaiting` | internal/state/state.go:80-95 | a caller that finds a lock of less than 30 s can neither take nor expire it, nor give up before its deadline |
| `StateStoreRuns.StaleExactlyAfterThirtySeconds` | internal/state/state.go:87-91 | over every run, a lock file is found stale if and only if it was made more than 30 s ago |
| `StateStoreProofs.SplitExpiryBreaksExclusion` | internal/state/state.go:88-91 | with stat and remove as two steps, two processes reach the critical section though no holder is slow |
| `StateStoreProofs.SlowHolderBreaksExclusion` | internal/state/state.go:88-91 | with a holder slower than 30 s they do so without any race |
| `LifecycleProofs.StepKeeps` | internal/daemon/daemon.go:94-185 | every transaction and every step around one keeps the invariant of pids, jobs, mirror flag and reports |
| `LifecycleProofs.CallsLeaveWhatTheyShould` | internal/setup/setup.go:119-442 | over every run, what each call leaves of the state when it is committed, field by field: an uninstall leaves nothing, setup the new install, a start its pid, and so on; aborted, it leaves the state alone (also internal/daemon/daemon.go:94-185) |
| `LifecycleProofs.CallsAreRefusedExactlyWhen` | internal/daemon/daemon.go:94-185 | only a start without an install, over an answering foreground or over a live daemon, and a stop without a live daemon are refused; only starts bring processes to life, and only stops and failed warm-ups kill one, the recorded daemon |
| `LifecycleProofs.MirrorIsSaved` | cmd/dockup/main.go:805-816 | a run in which a daemon comes up and its mirror is recorded |
| `LifecycleProofs.DaemonComesUpAndIsStopped` | internal/daemon/daemon.go:94-185 | and then is stopped, with its record |
| `LifecycleProofs.DoctorClearsStaleRecord` | internal/doctor/doctor.go:275-287 | a run in which doctor clears the record of a dead daemon |
| `LifecycleProofs.MirrorIsTheDaemonsOwnReport` | cmd/dockup/main.go:805-816 | over every interleaving, Mirror true means the recorded pid itself reported a served mirror, and Installed means a valid arch |
| `LifecycleProofs.MirrorAgreesExactlyWhen` | cmd/dockup/main.go:805-816 | once the report is dealt with, the flag agrees with it if and only if the daemon found itself recorded and its save went through, or it had no mirror |
| `LifecycleProofs.EarlyReportIsLost` | cmd/dockup/main.go:807-809 | a run in which a live daemon's served mirror is never recorded |
| `LifecycleProofs.UnsavedReportIsLost` | cmd/dockup/main.go:810-815 | a run in which a live daemon finds itself recorded, gets no lock, and its served mirror is never recorded |
| `LifecycleProofs.StartNeverOverwritesLive` | internal/daemon/daemon.go:94-129 | a start under way can be committed, and saves its pid only over none or over a dead one, whatever happened since it looked |
| `LifecycleProofs.TimeoutDisownsAnothersDaemon` | internal/daemon/daemon.go:133-138 | a run in which the timeout of one start clears the record of another's live daemon |
| `LifecycleProofs.TimeoutErasesAnothersExactlyWhen` | internal/daemon/daemon.go:133-138 | over every run, the timeout does what a compare-and-clear would do if and only if the record is its own or none; otherwise it erases that of another daemon, the last one saved |
| `LifecycleProofs.OwnRecordWithoutLaterSave` | internal/daemon/daemon.go:127-155 | with no start saved after its own, a start that times out or whose warm-up fails finds its own record or none, whatever else ran |
| `LifecycleProofs.WarmFailKillsItsOwnExactlyWhen` | internal/daemon/daemon.go:145-155 | over every run, a failed warm-up ends its own child if and only if the record is its own; otherwise it ends the last daemon saved |
| `LifecycleProofs.WarmFailKillsAnothersDaemon` | internal/daemon/daemon.go:145-155 | a run in which the second daemon is killed and the first child lives on without a record |
| `LifecycleProofs.RecordIsTheLastSaved` | internal/daemon/daemon.go:94-138 | over every run the record is empty or that of the last start saved |
| `LifecycleProofs.DoctorClearsOnlyWhatItRead` | internal/doctor/doctor.go:275-287 | doctor's repair changes nothing or clears exactly the record it had read, never a newer one |
| `LifecycleProofs.LiveDaemonKeepsItsRecordExactlyWhen` | internal/daemon/daemon.go:133-185 | a daemon that goes on living loses its record to the commit of a reset, of its own start's timeout, of doctor clearing what it read or of another start's timeout, and to nothing else; stop and a failed warm-up erase only the record of a daemon they killed (internal/setup/setup.go:121-124 and 439-442) |
| `LifecycleProofs.StopWritesExactlyWhenAlive` | internal/daemon/daemon.go:172-185 | a stop makes its edit if and only if the recorded daemon is alive, and kills it; the record goes if the save goes through, and otherwise stays though the daemon is dead; a stop that finds it dead does nothing |
| `LifecycleProofs.StaleStopWritesNothing` | internal/state/state.go:75-106 | on the real store, the whole locked call of a stop that finds its daemon dead gives the lock back and leaves state.json, its temporary file, the history and every later Load as they were |
| `LifecycleProofs.CommittedStopsMetALiveDaemon` | internal/daemon/daemon.go:172-185 | over every run of the real store, a stop that was committed found a live daemon in the state it loaded: no stop ever removed a stale pid |
| `LifecycleProofs.StaleStopIsReached` | internal/daemon/daemon.go:177-181 | a run in which a stop meets a stale pid and is refused |
| `LifecycleProofs.EveryLoadHasValidArch` | internal/setup/setup.go:352-362 | whatever transactions run and crash under the lock, every Load finds a valid architecture with an install record (the check at internal/setup/setup.go:75-78) |
| `WholeSystem.StepSimulates` | internal/state/state.go:75-106 | one step of processes and commands on the real store is one step of the commands, or none that a reader of state.json can see |
| `WholeSystem.EveryRunIsALifecycleRun` | internal/state/state.go:41-106 | every run of any number of processes making the commands' calls on the real store, crashing anywhere, is a run of the commands, and every Load returns its state, if live holders finish within 30 s and a stale lock is removed in one step with its stat |
| `WholeSystem.StateJsonIsTrue` | cmd/dockup/main.go:805-816 | at every moment the mirror flag, the pid and the architecture found in state.json are what the lifecycle theorems say, under the same two assumptions |
| `WholeSystem.ReadersSeeWhatIsLeft` | internal/state/state.go:41-106 | every commit on the real store is seen by the next reader as what its call is to leave, nothing after an uninstall, under the same two assumptions |
| `WholeSystem.SavedStartsOverwriteNobody` | internal/daemon/daemon.go:94-129 | a start about to rename its state into place overwrites no live daemon's record |
| `WholeSystem.SetupReachesTheDisk` | internal/setup/setup.go:356-362 | a run of the whole system in which the first setup's transaction goes from the lock to the renamed file |
| `Reconcile.Record.ReconcileDistro` | internal/doctor/doctor.go:86-126 | presence is denied if and only if the API denies the distro or, without the API, the list was read and lacks it; then the flag goes if the transaction is committed, and config.json becomes what reading and saving it, or failing to, make of it; otherwise nothing changes |
| `Reconcile.FlagIsDroppedExactlyWhen` | internal/doctor/doctor.go:86-126 | over any number of checks the flag is lost if and only if one of them confirmed the absence and was committed |
| `Reconcile.PathIsDroppedExactlyWhen` | internal/doctor/doctor.go:110-116 | over any number of checks config.json changes if and only if one of them confirmed the absence and got at it, and the first to do so decides: only the path is gone, or, if its save was cut short, every setting |
| `Reconcile.ListDecidesInEveryEncoding` | internal/doctor/doctor.go:96-104 | in each encoding of the list, absence is confirmed exactly when the distro is not on it |
| `Reconcile.DistroIsCalledDockup` | internal/doctor/doctor.go:96-100 | of the ASCII names exactly dockup is the distro, in any letter case and with white space around it |
| `ConfigFile.SaveThenLoad` | internal/userconfig/userconfig.go:82-122 | what is saved is read back with defaults filled in; after a cut-short save nothing is, and the defaults are gone on with |
| `ConfigFile.DefaultsFillInOnlyThePath` | internal/userconfig/userconfig.go:68-110 | only an empty default path is filled in, and a missing file is the defaults |
| `ImageCache.PlacesAreDistinct` | internal/image/image.go:41-51 | the four cache files and four temporary files never share a path |
| `ImageCache.FetchVerifiedChecksum` | internal/image/image.go:201-226 | the digest returned is that of the signed release on offer, whose files are at hand; it fails only for answers without one or a file that cannot be stored, and then leaves no part |
| `ImageCache.InstallFile` | internal/image/image.go:301-306 | on success the file has moved; after every operation the cache is as before or in mid-commit |
| `ImageCache.WriteMeta` | internal/image/image.go:308-322 | the metadata changes last: every state before its rename is in mid-commit |
| `ImageCache.CommitRelease` | internal/image/image.go:112-130 | on success the four files are those of the release; every state on the way is old, new or in mid-commit |
| `ImageCache.Refresh` | internal/image/image.go:104-131 | success leaves a sound cache that is accepted and holds the tarball answered; a failure without a disk fault leaves the old one, and comes only from an answer that is not the tarball the checksum names |
| `ImageCache.KeepCache` | internal/image/image.go:97-102 | an unchanged release leaves the cache as it was |
| `ImageCache.Download` | internal/image/image.go:88-132 | the same promises as EnsureWithKey for everything after the cache check |
| `ImageCache.EnsureWithKey` | internal/image/image.go:79-132 | from any files and any answers: success means the tarball hashes to the digest of a checksum file whose signature verifies, and that digest is returned; what is not a hit is the release on offer; while the disk obeys it fails if and only if there is no hit and the answers do not help; a success is a hit next time; a hit uses no network; an unchanged release fetches no tarball; a failure leaves the cache as it was without the parts it fetched, and an older tarball part exactly when no signed release is offered; against a release with another digest a crash at any point leaves the old cache, the new one, or one that is not accepted |
| `ImageCache.StalePartOutlivesFailure` | internal/image/image.go:93-105 | the case: a tarball part on an otherwise empty disk, and a server that breaks off, leave a failure and the part |
| `ImageCache.EnsureTwice` | internal/image/image.go:88-91 | the call after a success is served from the cache with the same digest and no request |
| `ImageCache.CachedExactlyWhen` | internal/image/image.go:162-196 | verifyCache accepts exactly the sound caches whose metadata is of this release and architecture and names their digest |
| `ImageCache.MidCommitIsRejected` | internal/image/image.go:162-196 | replacing a release by one with a different digest, verifyCache rejects every mid-commit state |
| `ImageCache.CrashLeavesOldNewOrNone` | internal/image/image.go:112-130 | so a crash at any point leaves the old cache, the new one, or one that is not accepted |
| `ImageCacheProofs.InstallerEnvIsLawful` | internal/image/image.go:264-277 | the installer's own checks meet the assumptions of the cache theorems if its JSON codec does |
| `ImageCacheProofs.PublishedReleaseIsOffered` | internal/image/image.go:198-226 | a release published by build and imgtool is offered to an installer with the matching key, and its tarball matches (scripts/image/build.sh:153) |
| `ImageCacheProofs.OnlyGenuineReleasesAreOffered` | internal/image/image.go:201-261 | for the installer a checksum file is signed if and only if a key of 32 bytes verifies a signature of 64 bytes over it; no other release is offered |
| `ImageCacheProofs.SoundMeansGenuine` | internal/image/image.go:79-299 | so what EnsureWithKey leaves as sound has a genuinely signed checksum file whose first field is the tarball's hash and the digest returned, but for letter case |
| `ImageCacheProofs.NamesAndPlaces` | internal/image/image.go:41-51 | all names under the cache, the three addresses and the metadata, written out |
| `Disk.Network.Fetch` | internal/download/download.go:34-91 | only the destination changes; on success it holds the answer, whatever the answers are |
| `Base64.DecodeEncode` | scripts/image/imgtool/main.go:134-135 | decoding undoes encoding for all bytes (section 4 of RFC 4648) |
| `Base64.AlphabetIsStandard` | scripts/image/imgtool/main.go:72 | the alphabet of section 4 of RFC 4648 |
| `Base64.OnlyTheAlphabetIsRead` | scripts/image/imgtool/main.go:72 | each character is read as the value it is written for, and no other is |
| `Base64.DecodedIsWellFormed` | scripts/image/imgtool/main.go:72 | what decodes comes in groups of four, padded at most at the end, three bytes a group |
| `Base64.OnlyTheAlphabetDecodes` | scripts/image/imgtool/main.go:72 | a text with any character but these, padding and line breaks is corrupt |
| `Base64.TestVectors` | scripts/image/imgtool/main.go:135 | examples of section 10 of RFC 4648 |
| `Signing.PublishedIsAccepted` | scripts/image/imgtool/main.go:92-140 | what imgtool signs is accepted by imgtool and the installer under the public key imgtool prints (internal/image/image.go:242-261) |
| `Signing.ToolAndInstallerAgree` | scripts/image/imgtool/main.go:142-176 | imgtool verify and VerifySignature accept the same inputs (internal/image/image.go:242-261) |
| `Signing.AcceptedExactlyWhenGenuine` | internal/image/image.go:242-261 | both accept exactly the texts behind which a key of 32 bytes verifies a signature of 64 bytes over the message |
| `Signing.ToolTakesExactlySeeds` | scripts/image/imgtool/main.go:92-140 | imgtool signs with, and derives a key from, exactly the base64 texts of 32 bytes, and ends the signature with a newline |
| `Signing.ChecksumLineIsRead` | internal/image/image.go:264-277 | a line as sha256sum prints it is read as its digest, in lower case, whatever the case on the line (the line of scripts/image/build.sh:153) |
| `Signing.DigestIsTheFirstField` | internal/image/image.go:264-277 | a digest is read if and only if the first field is 64 hexadecimal digits, and is that field in lower case |
| `Signing.FoldedHexDiffersInCaseOnly` | internal/image/image.go:189-295 | nothing but another letter case of a digest compares equal to it |
| `WslList.DecodeWslOutput` | internal/wsl/wsl.go:42-55 | the loop decodes UTF-16LE with or without mark, or UTF-8, as specified, odd bytes and lone surrogates included |
| `WslList.ParseListOutput` | internal/wsl/wsl.go:28-39 | the names are the cleaned non-empty lines, in order |
| `WslListRoundTrip.Utf16RoundTrip` | internal/wsl/wsl.go:42-52 | decoding undoes UTF-16 encoding, surrogate pairs included (section 2 of RFC 2781) (encoder of test/unit/wsl_parse_test.go:12-20) |
| `WslListRoundTrip.Utf8RoundTrip` | internal/wsl/wsl.go:54 | decoding undoes UTF-8 encoding (section 3 of RFC 3629) |
| `WslListRoundTrip.ListingParses` | internal/wsl/wsl.go:31-37 | CRLF-terminated names are read back as the list |
| `WslListRoundTrip.BlankLinesAreSkipped` | internal/wsl/wsl.go:31-37 | with blank lines anywhere exactly the names are found, in order |
| `WslListRoundTrip.PaddingIsTrimmed` | internal/wsl/wsl.go:32 | NULs, carriage returns and white space around a name are not part of it |
| `WslListRoundTrip.KnownBytes` | internal/wsl/wsl.go:42-54 | a surrogate pair, lone surrogates, an odd byte and UTF-8 sequences, by their bytes |
| `WslListRoundTrip.MarkedUtf16RoundTrips` | internal/wsl/wsl.go:28-52 | any list of names in UTF-16LE with a mark is read back exactly (encoder of test/unit/wsl_parse_test.go:12-20) |
| `WslListRoundTrip.Utf8ListRoundTrips` | internal/wsl/wsl.go:28-55 | any list of names in UTF-8 is read back exactly: it is never taken for UTF-16 |
| `WslListRoundTrip.BareUtf16RoundTripsExactlyWhen` | internal/wsl/wsl.go:43-48 | in UTF-16LE without a mark it is if and only if the first name does not start with U+FEFF |
| `WslMemory.ParseAmount` | internal/doctor/doctor.go:47-72 | the digit loop and the 64-bit guard yield the exact product whenever it fits, and nothing otherwise |
| `WslMemory.ParseWslMemory` | internal/doctor/doctor.go:29-75 | the result is the first well-formed memory= value whose nearest header is wsl2, or nothing, and at most 2^64-1 |
| `WslMemory.ScanIsTheAnswer` | internal/doctor/doctor.go:29-75 | that specification has exactly one answer for every text: the one a scan from the front finds |
| `WslMemory.OutsideNeverMatters` | internal/doctor/doctor.go:36-42 | in any text, a line outside the section that is no header can be put in or taken out without changing the limit |
| `WslMemory.CommentNeverMatters` | internal/doctor/doctor.go:31-35 | a comment appended to any line of any text never changes the limit |
| `WslMemory.StrippedTextsAgree` | internal/doctor/doctor.go:31-35 | texts whose lines agree without comments and surrounding white space set the same limit |
| `WslMemory.FitsExactlyWhen` | internal/doctor/doctor.go:69-72 | the division guard passes exactly when the product fits, and then uint64 multiplication is exact |
| `WslMemory.PrintedIsReadBack` | internal/doctor/doctor.go:29-75 | n and a unit in any letter case, printed and parsed, give n units exactly when they fit 64 bits |
| `WslMemory.LimitsInNumbers` | internal/doctor/doctor.go:57-72 | for every spelling of a unit the limit is n times 1024, 1048576, 1073741824 or 1099511627776, as far as 64 bits go |
| `WslMemory.OnlyTheseAreUnits` | internal/doctor/doctor.go:57-68 | of the ASCII words no other is a unit |
| `WslMemory.BareNumberSetsNothing` | internal/doctor/doctor.go:66-68 | a number without a unit sets no limit |
| `WslMemory.AmountIsFree` | internal/doctor/doctor.go:47-57 | white space may stand before the unit; without a digit in front there is no limit |
| `WslMemory.HeaderOpensExactlyWhen` | internal/doctor/doctor.go:36-38 | of the ASCII headers exactly wsl2 opens the section, in any letter case and with white space around it |
| `WslMemory.MemoryLineIsFree` | internal/doctor/doctor.go:32-47 | a memory line says the same in any letter case of its key and with any white space around key and value |
| `Text.SpacesInNumbers` | internal/doctor/doctor.go:32-47 | the characters that count as white space |
| `Text.SpecialLetters` | internal/doctor/doctor.go:37-57 | the only characters beside the letters that fold or lower to one |
| `Tasklist.SplitCsv` | internal/sysinfo/sysinfo.go:131-148 | the loop splits at unquoted commas and drops quotes, as specified |
| `Tasklist.SplitLosesOnlySyntax` | internal/sysinfo/sysinfo.go:131-148 | one field more than unquoted commas, and the fields joined are the line without quotes and separators |
| `Tasklist.DigitsOnly` | internal/sysinfo/sysinfo.go:151-159 | exactly the digits, in order |
| `Tasklist.GroupingIsIgnored` | internal/sysinfo/sysinfo.go:150-159 | digits grouped by any separators are read back |
| `Tasklist.ParseTasklist` | internal/sysinfo/sysinfo.go:75-93 | the processes are those of the rows, in order |
| `Tasklist.TasklistReadsRows` | internal/sysinfo/sysinfo.go:75-93 | any rendered rows yield exactly their matching processes |
| `Tasklist.TasklistRoundTrip` | internal/sysinfo/sysinfo.go:72-93 | any running processes, printed with any grouping, are read back as the pids and kilobytes of the image other than this process |
| `Tasklist.RowIsReadExactlyWhen` | internal/sysinfo/sysinfo.go:78-90 | a row is passed over if and only if it is too short, of another image, of this process, or has no pid or figure that can be read |
| `Text.SignedDecimalParses` | internal/sysinfo/sysinfo.go:82 | a pid may have a sign |
| `InstallRoot.RunsSettle` | internal/setup/setup.go:366-368 | over all runs of first runs, setups, failures, removals, uninstalls and settings, with reads and saves failing or cut short at will, config.json is missing, torn, or has a current_path that is empty or equals default_path (also internal/setup/setup.go:84-88 and 458-465) |
| `InstallRoot.TornOnlyByCutShort` | internal/userconfig/userconfig.go:113-122 | config.json is torn only if a save of the run was cut short |
| `InstallRoot.UninstallKeepsRootExactlyWhen` | internal/userconfig/userconfig.go:192-207 | uninstalling keeps the root of a settled config.json, however paths are normalized, unless its save is cut short and the root is not the default one; if normalizing changes no path, it loses it then (internal/setup/setup.go:458-465) |
| `InstallRoot.WrittenUninstallKeepsRootExactlyWhen` | internal/setup/setup.go:458-465 | with saves that go through, the root is kept for settled configs and no others |
| `InstallRoot.UninstallAlwaysKeepsRoot` | internal/setup/setup.go:423-477 | hence after any commands and failures from the first run on, unless the uninstall's own save is cut short in a config.json with a root of its own |
| `InstallRoot.SetupChoosesTheRoot` | internal/setup/setup.go:363-368 | after a setup into a directory that is the root, whatever there was before, and the other settings stay |
| `InstallRoot.StepsSave` | internal/setup/setup.go:84-88 | what each of the other commands saves, field by field (also internal/setup/setup.go:458-465) |
| `InstallRoot.UnusableConfig` | internal/setup/setup.go:458-465 | a config.json that cannot be used is left alone by uninstall, doctor, autostart and the first run, and written anew from the defaults by the context commands |
| `InstallRoot.NothingToClear` | internal/doctor/doctor.go:111-118 | doctor does not write a config.json that has no path to be cleared |
| `InstallRoot.RootInWords` | internal/userconfig/userconfig.go:192-207 | the current path if it has a normal form, else the default path, else the old location; the built-in default if config.json cannot be used |
| `InstallRoot.DistroDirExactlyWhen` | internal/userconfig/userconfig.go:209-221 | the distro is in the root itself if and only if only that has a virtual disk, and otherwise in root/distro |
| `InstallRoot.CacheIsApart` | internal/setup/setup.go:443-453 | no cache file lies in what uninstall removes |
| `InstallRoot.OwnDiskIsSpared` | internal/userconfig/userconfig.go:209-221 | the disk of a distro where dockup puts it, or did, is outside the cache |
| `InstallRoot.Machine.Uninstall` | internal/setup/setup.go:423-490 | for any config.json, read or not, and in both layouts, whatever fails: only the registered disk and the distro's files under the root chosen go, nothing under that root's cache does; a failure to unregister leaves everything; what is removed without complaint is all of it; config.json becomes what the save makes of it |
| `InstallRoot.Machine.DirSize` | internal/image/image.go:331-340 | the sum of the sizes of exactly the files below |
| `InstallRoot.Machine.CacheExists` | internal/image/image.go:136-150 | true if and only if the cache holds a file that is not empty |
| `InstallRoot.Machine.Clear` | internal/image/image.go:153-160 | exactly the cache is removed and its size reported, or RemoveAll failed, only cache files went and nothing is reported |
| `InstallRoot.Machine.UninstallThenPrune` | internal/image/image.go:134-160 | whatever else of an uninstall failed, the cache is found as it was, unless the save was cut short in a config.json with a root of its own; if pruning can remove it, that frees its old size and none is left (after internal/setup/setup.go:423-477) |
| `InstallRoot.TornSaveLosesTheCache` | internal/userconfig/userconfig.go:192-207 | the case: an install outside the default root, an uninstall whose save is cut short, and then the root is the default one, no cache is found, and the cache is still there |
| `LogRotation.LogDir.Append` | internal/logx/logx.go:47-59 | the line is at the end of the log, rotated first if it was over the limit |
| `LogRotation.KeptIsTheEnd` | internal/logx/logx.go:46-66 | over all runs the files joined are the end of everything appended: all of it up to the third rotation, and over three limits from then on |
| `LogRotation.RotationsFill` | internal/logx/logx.go:47-66 | which rotated files exist, and that each is over the limit (limit from internal/config/config.go:39) |
| `LogRotation.FilesStayBounded` | internal/logx/logx.go:47-66 | no file grows beyond the limit by more than one message and its newline (limit from internal/config/config.go:39) |
| `LogRotation.RotatesOnlyAboveFiveMebibytes` | internal/logx/logx.go:50-58 | a log of more than 5242880 bytes is put aside before the next line, and no other |
| `DockerContext.HostIsIdempotent` | internal/dockctx/dockctx.go:26-33 | a docker host is its own host, for any pipe |
| `DockerContext.HostsInWords` | internal/dockctx/dockctx.go:26-33 | a pipe path and a plain name become npipe:////./pipe/name, and a docker host stays |
| `DockerContext.Docker.Ensure` | internal/dockctx/dockctx.go:95-112 | the context store and both results, for every combination of failing commands |
| `DockerContext.Docker.Use` | internal/dockctx/dockctx.go:115-121 | the same for Use |
| `DockerContext.Docker.ContextUse` | cmd/dockup/main.go:917-943 | the same for context use, with the saved name and every outcome of reading and saving config.json |
| `DockerContext.Docker.ContextOff` | cmd/dockup/main.go:946-970 | the same for context off, with every outcome of reading and saving config.json |
| `DockerContext.Docker.Remove` | internal/dockctx/dockctx.go:138-148 | only a context that points at our pipe goes |
| `DockerContext.OnlyOurContextIsTouched` | internal/dockctx/dockctx.go:93-148 | setup and uninstall touch no context but dockup, and uninstall that only if it is on our host, going back to default if it was current |
| `DockerContext.OffElsewhereDoesNothing` | cmd/dockup/main.go:952-955 | off does nothing unless dockup is current, and never changes which contexts there are |
| `DockerContext.UseSucceedsExactlyWhen` | internal/dockctx/dockctx.go:95-121 | context use succeeds if and only if docker is at hand and the context is on the wanted host, rebuilt or new, and then dockup is current on that host |
| `DockerContext.EnsureIsIdempotent` | internal/dockctx/dockctx.go:93-112 | a success leaves the context on the wanted host, a second call writes nothing, and the current context survives unless it was rebuilt |
| `DockerContext.RemembersExactlyWhen` | cmd/dockup/main.go:923-934 | a step never leaves a wrong saved name if and only if it is no context use from outside, or docker told the current context and config.json was written, or nothing needed saving |
| `DockerContext.UseSavesExactlyWhen` | cmd/dockup/main.go:923-934 | after a context use from outside the context left is the saved name if and only if docker told it and the save was done, or it was saved and stays; forgotten, off goes to the default context |
| `DockerContext.UnreadContextLeavesStaleName` | cmd/dockup/main.go:923-934 | an example in which it is not kept |
| `DockerContext.OffRestores` | cmd/dockup/main.go:946-970 | off returns to the context current before the latest context use from outside if it is remembered and exists, else to default, and forgets it if config.json is written |
| `DockerContext.RunRemembers` | cmd/dockup/main.go:917-970 | over any run of uses, offs, setups, uninstalls, config.json lost by other commands and outside switches the saved name is the right one or none, if every context use could read the current context and got at config.json (also internal/setup/setup.go:463-468) |
| `Download.Fetch` | internal/download/download.go:54-90 | it succeeds exactly when the body ends without a fault and is written; the file is then the whole body; the reports are the bytes at each due read and at the end, and never decrease |
| `Download.ShowProgress` | internal/setup/setup.go:160-168 | the increments sum to the last report and are never negative |

## Left out

- Real processes, pipes, HTTP, `wsl.exe`, `tasklist` and the Docker CLI: each is a step or an answer that can be anything it could be in reality.
- Classes for the four protocols: `Relay`, `Listeners`, `StateStore` and `Lifecycle` are transitions over values because they are about interleaving, which one object's methods in sequence would not show.
- The contents of a copy buffer: one read of a copier is one chunk of any size; log lines and debug output of the bridge are not modelled.
- Creating the lock file and writing the pid into it are one step; the pid is never read.  Errors of MkdirAll and Stat are covered as a transaction that does not happen.
- ServeEx without a distro name, which its callers never pass.
- In `Lifecycle` a transaction is made under a lock that excludes and times out; that the lock file is one is `WholeSystem`, under the two assumptions of `StateStoreProofs`.
- A killed process never exits successfully, as with TerminateProcess; a process that exits before the kill reaches it was not killed.
- Pid reuse: a new child has a pid never used before.
- The daemon's pipe answering is an arbitrary answer, so is whether a pid is alive, except that a killed child is dead.
- Two `EnsureWithKey` calls at once on the same `.part` files, and two writers of `config.json`, which has no lock.  Errors of Stat on `config.json` other than a missing file.
- Directories in the image cache: a disk holds files only, and a directory in a file's place is not represented.
- Ed25519, SHA-256 and JSON: functions with a law (what is signed verifies, what is written is read back).
- Bytes in text: parsers see decoded characters, so a byte that is not UTF-8 appears as U+FFFD where the source keeps the byte.
- strings.EqualFold is given for ASCII words, and is a parameter of `Tasklist`.
- `ParseLimit`, `ParseAmount`, `ParseLine` and `ParseRow` are parts of loop bodies in the source.
- What NormalizePath does is a parameter; files are found under the root it gives, and letter case in Windows paths is not folded.
- Failures of log renames while another handle is open.
- setup's import, its fallback to a plain Debian image, its prompts, and the restore command's package list, which is a set difference.
- Terminal output, status, ps, autostart, version parsing and size formatting: finite tables or text.
