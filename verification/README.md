# Oduflow: a verified model of its stateful protocols

Oduflow runs Odoo environments on Docker and PostgreSQL. This project models the control logic that has to survive crashes,
failing commands, concurrent callers and operators, and proves what it promises. External tools (Docker, PostgreSQL, git,
flock, S3, the file system) are effects on an explicit state. Every effect is asked for with a verdict that the surroundings
choose: it happens, it is refused, it happens but reports an error, or the process dies before it. A method's contract holds
for every choice, so a property that a method ensures in all its outcomes holds at every point where the process can die.

- `Postgres*.dfy`: the journalled major upgrade. `PostgresWorld` is the durable state and its invariant, `PostgresEffects` the
  commands and which of them are safe when, `PostgresSteps` and `PostgresPlan` what each step relies on, `PostgresMigration`
  the upgrade itself as a class whose in-memory journal is lost in a crash. Running applications may write to any database
  between any two commands; only the managed applications write.
- `LockState`, `LockRuns`, `LockStrays`, `Locking`: the fields of a lock manager and the lock files; every interleaving of
  processes and threads at the granularity of single file locks, with callers that pair acquire and release and with callers
  that do not; the lock manager as a class. All use the same functions on its fields.
- `ConfigStore`: the difference of two configuration documents as a set of classified changes, and the live overlay.
- `BundledUpgrade`: the thirteen ways to reconcile a deployed file with a newer bundle, for any three-way merge function.
- `BackupSwap`, `BackupStore`: swapping a restored database and filestore in; snapshots and retention in object storage.
- `OAuthTokenStore`: token pairs, their lineages, the shared file and one cache per process (RFC 6749 section 10.4,
  RFC 7009 section 2.1).
- `Naming`, `OcaCatalog`, `Registries`, `ExtraAddons`, `GitAnalysis`, `Scheduler`: identifiers, import names, hostnames and
  ports, refspecs of shared repositories, classification of changed files, backup slots. `Effects`, `Numerals` and `Counting`
  are shared vocabulary.

Where the code does not keep a promise, the exact condition is proved beside a concrete case:

- A request for a base backup, which the upgrade makes, gives a slot three more attempts, also after a success; it is harmless
  exactly in a slot that was not tried before (`Scheduler.RequestIsHarmlessExactlyWhen`, `Scheduler.SuccessThenRequest`,
  `Scheduler.FourAttempts`). A pass that decided before a snapshot by hand finished tries the slot again
  (`Scheduler.DecideThenRun`, `Scheduler.DecidedBeforeManual`).
- An application that an upgrade stopped and whose start fails, which is only logged, stays down when the server dies before the
  upgrade is finished and a later start finishes it (`PostgresMigration.Upgrade.Start`, `PostgresMigration.StaysDown`).
- An application that dies between a newer version's sidecar and its pending file lets the operator accept the older version by
  deleting the newer sidecar (`BundledUpgrade.UnaskedLaterExactlyWhen`, `BundledUpgrade.SecondSidecarAcceptsFirstVersion`).
- A swap started while the live database is not under its own name can lose the last copy
  (`BackupSwap.Production.CommitRestoredPair`, `BackupSwap.UnsettledSwapLoses`, `BackupSwap.RetryAfterInterruptionLoses`).
- Odoo is restarted over an incoherent pair exactly when putting the old filestore back failed
  (`BackupSwap.Production.CommitRestoredPair`, `BackupSwap.StrandedRestart`).
- A manifest that cannot be read while retention lists the bucket does not protect its filestore revision
  (`BackupStore.PruneIsSafeExactlyWhen`, `BackupStore.OneUnreadableManifestDangles`).
- Revoking an access token that expiry has already removed does not reach its refresh token, although the docstring says that
  revocation ends the pair whichever side is presented (`OAuthTokenStore.RevocationReachesPartner`,
  `OAuthTokenStore.RevokingExpiredLeavesRefresh`); a revocation by another process is seen only on a cache miss
  (`OAuthTokenStore.RevokedElsewhere`).
- Clearing a hostname while retaining the slot of an unknown environment can exceed the cap
  (`Registries.Hostnames.ClearHostnameAssignment`, `Registries.ClearCanExceedCap`).
- A refspec that is configured twice makes the removal of a branch fail on every attempt, and registering a repository with a
  repeated branch configures it twice (`ExtraAddons.ExtraRepo.UntrackBranch`, `ExtraAddons.FetchKeepsSingle`,
  `ExtraAddons.RepeatedBranchIsStuck`).
- The list of reloadable XML files depends on the order of the changed files
  (`GitAnalysis.HotXmlSameInEveryOrderExactlyWhen`, `GitAnalysis.HotXmlDependsOnOrder`).
- A database name of 63 characters or more is cut short by PostgreSQL, so that another name shares the database under another
  lock (`Naming.LockCoversDatabaseExactlyWhen`, `Naming.CutShort`).

## Model

| member | source | states |
|---|---|---|
| `PostgresWorld.InvMeansNothingLost` | src/oduflow/postgres_migration.py:758-837 | In every state that satisfies the upgrade invariant, the last content of every database and role set is in a cluster or in a complete dump |
| `PostgresEffects.WritesTouch` | src/oduflow/postgres_migration.py:694-720 | Whatever running applications write between two effects, frozen clusters, containers, volumes and database names stay, and live content stays live |
| `PostgresEffects.PerformKeepsForward` | src/oduflow/postgres_migration.py:1123-1174 | Every command the upgrade may issue past the point of no return, with every verdict, keeps the promise of every cluster phase |
| `PostgresEffects.PerformKeepsInv` | src/oduflow/postgres_migration.py:1123-1174 | After any permitted command that succeeds, fails, fails late or is cut short, the state on disk still satisfies the invariant, so a crash there is safe |
| `PostgresSteps.StepKeepsInv` | src/oduflow/postgres_migration.py:694-720 | The same for a command together with the application writes before it |
| `PostgresSteps.JournalNotes` | src/oduflow/postgres_migration.py:632-633 | A journal that differs only in notes no cluster depends on may be saved at any point |
| `PostgresSteps.FlipIsSafe` | src/oduflow/postgres_migration.py:1134-1136 | Once every cluster is frozen and completely dumped, marking all of them for removal in one journal write keeps the invariant and starts the forward path |
| `PostgresSteps.Reclassify` | src/oduflow/postgres_migration.py:1147-1169 | Advancing one cluster to a phase whose promise already holds keeps the invariant |
| `PostgresSteps.DumpsAreGood` | src/oduflow/postgres_migration.py:758-796 | Verified dumps of the roles and of every planned database of an untouched old cluster are complete and current dumps of everything it carries |
| `PostgresSteps.AllIntactIsCancellable` | src/oduflow/postgres_migration.py:854-863 | A forward upgrade that still finds every old container and volume has removed nothing, so cancelling it is safe |
| `PostgresSteps.RestoreStep` | src/oduflow/postgres_migration.py:944-982 | A successful restore from a current dump brings the last content back, and fails only when the command itself fails |
| `PostgresSteps.DonePhase` | src/oduflow/postgres_migration.py:1167-1169 | When the roles and all planned databases are recorded as restored, the replacement holds exactly the current content |
| `PostgresSteps.DumpsSurviveUntilDone` | src/oduflow/postgres_migration.py:799-837 | Past the point of no return no cluster is in the dump phase, and every cluster not done yet is frozen and has complete current dumps |
| `PostgresSteps.RecordedStaysRestored` | src/oduflow/postgres_migration.py:953-963 | No command of a forward upgrade destroys a database that the journal records as restored |
| `PostgresPlan.PlanIsSafe` | src/oduflow/postgres_migration.py:513-621 | Saving a plan that lists every database of the clusters it names, as they are now, keeps the invariant |
| `PostgresMigration.Upgrade.Inventory` | src/oduflow/postgres_migration.py:374-425 | On success the names are exactly the databases of the cluster, every one is carried over, and the container is as it was |
| `PostgresPlan.CarriedNames` | src/oduflow/postgres_migration.py:374-425 | Exactly the databases that are both present and carried over |
| `PostgresMigration.Upgrade.Do` | src/oduflow/postgres_migration.py:1123-1174 | One command and the writes before it: the new state is the modelled effect for its verdict, the invariant holds whatever happens, and forward progress is not undone |
| `PostgresMigration.Upgrade.SaveJournal` | src/oduflow/postgres_migration.py:632-633 | The journal on disk is the old one or the one in memory, and the latter on success; nothing else but application writes changes |
| `PostgresMigration.Upgrade.StopApplications` | src/oduflow/postgres_migration.py:694-720 | Every application that was up is up or listed as stopped in the journal on disk; on success no application can write to a planned cluster |
| `PostgresMigration.Upgrade.DumpOne` | src/oduflow/postgres_migration.py:776-796 | A dump that was read back is complete and equals the database; other dumps and frozen clusters are untouched |
| `PostgresMigration.Upgrade.DumpCluster` | src/oduflow/postgres_migration.py:490-510 | On success complete current dumps of the whole cluster, whose container is as it was: a stopped one was started and is stopped again; other clusters and dumps are untouched |
| `PostgresMigration.Upgrade.Cancel` | src/oduflow/postgres_migration.py:733-755 | Only from a cancellable state; on success no journal, and a base backup is requested if archive deletion had begun; without failures all stopped applications and every planned cluster that ran are running again and the dumps are gone |
| `PostgresMigration.Upgrade.DumpPhase` | src/oduflow/postgres_migration.py:1123-1136 | Either all clusters are dumped, frozen and marked for removal in one journal write, or the upgrade is cancelled or left in the dump phase |
| `PostgresMigration.Upgrade.RetireArchive` | src/oduflow/postgres_migration.py:840-863 | On success the old archive is gone and recorded; a failure while nothing else has been removed gives the upgrade up |
| `PostgresMigration.Upgrade.RemoveOldCluster` | src/oduflow/postgres_migration.py:799-837 | On success the planned container and its volume are gone and every cluster keeps the promise of its phase; without failing commands it succeeds |
| `PostgresMigration.Upgrade.CreateNewCluster` | src/oduflow/postgres_migration.py:903-929 | On success a running initialised cluster of the recorded major |
| `PostgresMigration.Upgrade.RestoreDatabases` | src/oduflow/postgres_migration.py:953-982 | Restores and records every planned database that is not recorded yet |
| `PostgresMigration.Upgrade.RestoreCluster` | src/oduflow/postgres_migration.py:932-982 | From any recorded progress to a finished replacement; only this cluster's record changes |
| `PostgresMigration.Upgrade.MoveCluster` | src/oduflow/postgres_migration.py:1146-1169 | One cluster from any phase past the dump to done, with the invariant at every point |
| `PostgresMigration.Upgrade.StartApplications` | src/oduflow/postgres_migration.py:1067-1097 | Only once every cluster is done; requests a base backup for a replaced production cluster; without failures every stopped application runs, while a production deliberately stopped stays stopped |
| `PostgresMigration.Upgrade.RestoreTemplates` | src/oduflow/postgres_migration.py:1025-1064 | On success every template of the plan is in the new cluster or recorded as skipped |
| `PostgresMigration.Upgrade.Finish` | src/oduflow/postgres_migration.py:1100-1120 | Only with every cluster done: drops the dumps, then the journal |
| `PostgresMigration.Upgrade.RunForward` | src/oduflow/postgres_migration.py:1137-1174 | From any point past the dump phase: the invariant whatever fails; success means that every planned cluster is initialised in the new major and every template is there or was skipped; without failures it succeeds, and exactly the applications listed as stopped are started, unless that was done before |
| `PostgresMigration.Upgrade.Run` | src/oduflow/postgres_migration.py:1123-1174 | From a fresh plan or any resumable journal: the invariant whatever fails; success means that every planned cluster is initialised in the new major; without failures it succeeds and every application that was running or listed as stopped runs, unless starting the listed ones was already recorded as done |
| `PostgresMigration.Upgrade.Resume` | src/oduflow/postgres_migration.py:1242-1263 | Cancels exactly the upgrades that removed nothing; otherwise goes on only with the pinned image and refuses, changing nothing, with another one |
| `PostgresMigration.Upgrade.Plan` | src/oduflow/postgres_migration.py:513-621 | Changes no container, volume or database name; a plan is safe to save, downgrades nothing, and covers every template database |
| `PostgresMigration.Upgrade.Start` | src/oduflow/postgres_migration.py:1285-1313 | From any state a crash can leave: invariant and no data loss whatever fails; success means no journal, and nothing left to upgrade or the plan made now carried out; without failures a journal is always gone at the end unless its pinned image was changed, and the applications it lists as stopped run exactly unless starting them was recorded as done while one of them was down |
| `PostgresMigration.FailedStartIsForgotten` | src/oduflow/postgres_migration.py:722-731 | A start that fails counts as done |
| `PostgresMigration.StaysDown` | src/oduflow/postgres_migration.py:1170-1172 | The concrete case: a later start finishes the upgrade and the application stays down |
| `PostgresMigration.Lifetime` | src/oduflow/postgres_migration.py:1285-1313 | Any number of starts, each dying anywhere, with applications writing in between, never lose data |
| `LockState.BegunIsConsistent` | src/oduflow/locking.py:442-475 | Taking the thread lock after the check in memory keeps the fields equal to what is held and freezes what the check established |
| `LockState.UndoneIsConsistent` | src/oduflow/locking.py:476-480 | Giving a half-taken acquisition up restores that agreement |
| `LockState.GrantedIsConsistent` | src/oduflow/locking.py:481-486 | Recording a holder keeps holder map, production keys and the per-team counters equal to what is held |
| `LockState.FreedIsConsistent` | src/oduflow/locking.py:564-584 | Releasing keeps them equal too |
| `LockState.GrantedMatches` | src/oduflow/locking.py:379-416 | After a grant exactly the gates of everything held are locked in the process's name |
| `LockState.FreedMatches` | src/oduflow/locking.py:418-420 | After a release exactly the released gates are unlocked |
| `LockRuns.KeysAreExclusive` | src/oduflow/locking.py:442-486 | No two processes hold one key |
| `LockRuns.TeamsAreExclusive` | src/oduflow/locking.py:594-624 | A held team lock excludes a second holder and every key acquired with that team, in any process |
| `LockRuns.SystemIsExclusive` | src/oduflow/locking.py:692-720 | A held system lock excludes a second holder and every production key, in any process |
| `LockRuns.NextKeepsInv` | src/oduflow/locking.py:357-720 | Every single step keeps fields, files and half-taken acquisitions in agreement: check, one file gate or its failure, recording, queueing, giving up, releasing, a process dying |
| `LockRuns.EveryRunIsExclusive` | src/oduflow/locking.py:357-720 | In every interleaving of any number of processes and threads all exclusions hold, and no second thread is past the thread lock of a held key |
| `Locking.FieldsExclude` | src/oduflow/locking.py:442-486 | Even without lock files the fields alone keep team and system locks apart from their keys |
| `Locking.LockManager.AcquireFiles` | src/oduflow/locking.py:379-416 | Takes every gate or none; without a system error it succeeds exactly when every gate is free |
| `Locking.LockManager.AcquireEnv` | src/oduflow/locking.py:442-486 | Granted in full or refused without a trace; without a system error granted exactly when memory admits it and every gate is free |
| `Locking.LockManager.ReleaseEnv` | src/oduflow/locking.py:564-584 | Undoes an acquisition: fields, counters and files; from a queued caller that is half-way it takes the thread lock; otherwise releasing what is not held does nothing |
| `Locking.LockManager.WaitFor` | src/oduflow/locking.py:488-507 | A queued caller gets the thread lock exactly when nobody has it |
| `Locking.LockManager.Poll` | src/oduflow/locking.py:508-544 | A queued caller keeps its thread lock only while another process has the key file; it is granted exactly when everything is free, skips only for the system lock, and leaves no trace otherwise |
| `Locking.LockManager.AcquireTeam` | src/oduflow/locking.py:594-624 | Granted in full or refused without a trace; refused in memory exactly while the team or one of its keys is held |
| `Locking.LockManager.ReleaseTeam` | src/oduflow/locking.py:654-665 | Undoes a team acquisition, files included |
| `Locking.LockManager.AcquireSystem` | src/oduflow/locking.py:692-715 | Granted in full or refused without a trace; refused in memory exactly while it or a production key is held |
| `Locking.LockManager.ReleaseSystem` | src/oduflow/locking.py:717-720 | Undoes a system acquisition, files included |
| `LockStrays.AfterIsSound` | src/oduflow/locking.py:357-720 | Every step, with thread locks in anybody's hands, keeps fields and files in agreement |
| `LockStrays.FilesAloneExclude` | src/oduflow/locking.py:379-420 | In every interleaving, whatever stray releases do to the thread locks, the lock files alone keep one holder per key, team and system, a team apart from its keys and the system from production keys |
| `LockStrays.HolderWithoutThreadLock` | src/oduflow/locking.py:564-572 | A release does nothing exactly if the thread lock of the key is gone or an acquisition is under way |
| `Naming.SameResourceSameLock` | src/oduflow/locking.py:31-49 | Two spellings of an environment that share the full database name or a container name share the lock key |
| `Naming.LockCoversDatabaseExactlyWhen` | src/oduflow/naming.py:281-289 | No other name shares a database, as PostgreSQL stores its name, without sharing the lock key, exactly while the name of the database is shorter than 63 characters |
| `Naming.CutShort` | src/oduflow/naming.py:281-289 | For every longer name: another one with the same stored database and another lock key |
| `Naming.StructuredKeysApart` | src/oduflow/locking.py:31-49 | Structured keys pass through, never meet an environment key, and canonicalising is idempotent |
| `Naming.IdentifierForms` | src/oduflow/naming.py:174-193 | An identifier has at most 63 characters and is either readable with a faithful team or ends in the digest of its exact parts |
| `Naming.UnderscoreAfterDot` | src/oduflow/naming.py:144-147 | After any dot a readable identifier still has an underscore, which a digest never has |
| `Naming.ReadableIsInjective` | src/oduflow/naming.py:161-171 | Readable identifiers of faithful teams determine team and name |
| `Naming.IdentifierIsInjective` | src/oduflow/naming.py:174-193 | Distinct databases share an identifier only if their digests collide |
| `Naming.ReadableAloneCollides` | src/oduflow/naming.py:161-171 | Without the digest, team a with b_c and team a_b with c would share a database |
| `ConfigStore.PathExtends` | src/oduflow/config_store.py:518-587 | A change lies at or below its path and carries the two documents' differing values there |
| `ConfigStore.PutRemovesChange` | src/oduflow/config_store.py:608-622 | Taking one change over removes exactly that change from the difference and touches no other |
| `ConfigStore.ChangesAreApart` | src/oduflow/config_store.py:547-587 | No change of a difference lies at or below another one |
| `ConfigStore.PutThenLookup` | src/oduflow/config_store.py:611-621 | Taking a change over sets its path and leaves every path apart from it alone |
| `ConfigStore.PutsCommute` | src/oduflow/config_store.py:608-622 | Taking over two changes that lie apart gives the same document in either order |
| `ConfigStore.Walk` | src/oduflow/config_store.py:507-587 | Lists every change of the difference exactly once, and nothing else |
| `ConfigStore.LiveOverlay` | src/oduflow/config_store.py:596-623 | The difference of the overlay is exactly the non-live part of the difference of the running document; live paths have the file's values, non-live and untouched paths the running ones |
| `ConfigStore.WorstApply` | src/oduflow/config_store.py:590-593 | The most demanding class among the changes |
| `ConfigStore.Runtime.ApplyLive` | src/oduflow/config_store.py:943-967 | Swaps in all live values or, if the result does not validate, none; what stays pending is the non-live part |
| `ConfigStore.Runtime.ApplyTwice` | src/oduflow/config_store.py:943-967 | A second application of the same file applies nothing and leaves nothing live pending |
| `BundledUpgrade.PlansAreComplete` | src/oduflow/bundled_upgrade.py:133-308 | A fresh plan has every part its kind needs and passes its own drift check |
| `BundledUpgrade.StepsSettle` | src/oduflow/bundled_upgrade.py:324-434 | The file operations of each of the thirteen kinds, in order, add up to its stated result |
| `BundledUpgrade.ReconcileIsIdempotent` | src/oduflow/bundled_upgrade.py:133-434 | For all files, any merge function and either mode, planning and applying twice equals doing it once |
| `BundledUpgrade.QuietAfterwards` | src/oduflow/bundled_upgrade.py:133-308 | After a run that needed nobody, the next plan is up to date, local only or kept |
| `BundledUpgrade.AttentionRepeats` | src/oduflow/bundled_upgrade.py:342-432 | A case that waits for the operator waits again and changes nothing more |
| `BundledUpgrade.ForceNeedsNobody` | src/oduflow/bundled_upgrade.py:133-142 | With force no plan waits for the operator |
| `BundledUpgrade.ReplacedContentIsBackedUp` | src/oduflow/bundled_upgrade.py:368-391 | Wherever an application dies, replaced live content is in the backup |
| `BundledUpgrade.BaselineMoves` | src/oduflow/bundled_upgrade.py:342-432 | At every point of an application the baseline has its old content, or the new bundle with the live file already written, or the acknowledged version |
| `BundledUpgrade.GatesAtEveryStep` | src/oduflow/bundled_upgrade.py:388-434 | At every point of an application a pending version has a review or merge sidecar in front of it, or nothing about it changed |
| `BundledUpgrade.CarryIsCareful` | src/oduflow/bundled_upgrade.py:324-434 | Applying a plan made earlier, cut short anywhere, backs replaced content up and moves the baseline only as the next row says |
| `BundledUpgrade.EveryHistoryIsCareful` | src/oduflow/bundled_upgrade.py:178-239 | In every history of upgrades, edits, dismissed sidecars, server starts and interrupted runs, the baseline moves to a version only if the live file equals it, the plan merged it cleanly from the accepted or the pending version, or it was pending when the operator dismissed a sidecar |
| `BundledUpgrade.OwnedUntilSevered` | src/oduflow/bundled_upgrade.py:393-432 | A step loses the link between the pending version and its own sidecar exactly when it dies between a newer sidecar and the pending file, over a version that was not dismissed and that no other sidecar shows |
| `BundledUpgrade.EveryUnseveredHistoryIsAskedFor` | src/oduflow/bundled_upgrade.py:178-239 | In every history without such a step, the operator had dismissed that very version's sidecar instead |
| `BundledUpgrade.UnaskedLaterExactlyWhen` | src/oduflow/bundled_upgrade.py:178-239 | From any reachable state, some further history moves the baseline to a version nobody dismissed exactly if the link is lost |
| `BundledUpgrade.SecondSidecarAcceptsFirstVersion` | src/oduflow/bundled_upgrade.py:393-407 | The concrete run: deleting the second version's sidecar makes the first version the baseline |
| `BundledUpgrade.UnforcedNeverOverwritesEdits` | src/oduflow/bundled_upgrade.py:133-308 | Without force, whatever replaces live content replaces an accepted version or merged it cleanly, at every point of the application |
| `BundledUpgrade.KeepIsUnconditional` | src/oduflow/bundled_upgrade.py:138-151 | A first line that says keep changes no file, with or without force |
| `BundledUpgrade.ManagedFile.ApplyReconcile` | src/oduflow/bundled_upgrade.py:324-434 | Refuses exactly when bundle, deployed file or base drifted; otherwise performs a prefix of the plan's operations, all of them on success |
| `BundledUpgrade.ManagedFile.Seed` | src/oduflow/bundled_upgrade.py:106-130 | Performs a prefix of its writes, all of them on success; never changes an existing deployed file and adopts it as baseline only when it equals the bundle |
| `BundledUpgrade.SeedReads` | src/oduflow/bundled_upgrade.py:106-130 | At every point of a seeding: an existing deployed file is kept, pending versions and sidecars are untouched, and the baseline moves only to the bundle that is deployed |
| `BackupSwap.Production.SwapFilestore` | src/oduflow/backup_ops.py:383-401 | Installs the staged filestore, or leaves the live one in place, or reports that putting it back failed |
| `BackupSwap.Production.RollBackDatabases` | src/oduflow/backup_ops.py:404-431 | On success the old database is live again; on failure the previous data still exists |
| `BackupSwap.Production.SwapBoth` | src/oduflow/backup_ops.py:464-529 | For every pattern of failures: the previous database exists until both halves are swapped, and the pair counts as safe exactly when it is coherent or putting the filestore back failed |
| `BackupSwap.Production.CommitRestoredPair` | src/oduflow/backup_ops.py:434-547 | A normal return means the restored pair; from a live database under its own name, the previous data survives every failure and Odoo runs at exit over a coherent pair, exactly unless the filestore compensation itself failed |
| `BackupSwap.Production.RestoreStaged` | src/oduflow/backup_ops.py:664-704 | The same after the caller's cleanup, which never drops the previous data |
| `BackupSwap.UnsettledSwapLoses` | src/oduflow/backup_ops.py:463-478 | From every other start one failing statement after the first leaves the previous data nowhere and nothing restored |
| `BackupSwap.StrandedRestart` | src/oduflow/backup_ops.py:397-400 | The concrete run: filestore and compensation fail, and Odoo is restarted over a mismatched pair |
| `BackupSwap.RetryAfterInterruptionLoses` | src/oduflow/backup_ops.py:463-469 | After an interrupted first rename, swapping again drops the only copy |
| `BackupStore.Store.SnapshotProduction` | src/oduflow/backup_ops.py:145-292 | The manifest comes last: a run that fails or dies commits nothing, or the complete snapshot if only the report of the last upload got lost; nothing dangles that did not before |
| `BackupStore.Store.DeleteSnapshot` | src/oduflow/backup_ops.py:1033-1040 | Manifest before dump: a crash leaves an orphan, never a dangling manifest |
| `BackupStore.Store.PruneBackups` | src/oduflow/backup_ops.py:997-1054 | With every manifest of the pruned productions readable, no point of a run leaves a dangling manifest; what a whole run keeps, exactly, and exactly when it is safe with unreadable ones |
| `BackupStore.Store.PruneRevisions` | src/oduflow/chunkstore/prune.py:152-201 | Tracked productions keep the given revisions, the newest one and those with unreadable metadata, untracked ones keep all, at every point of the run |
| `BackupStore.PruneIsSafeExactlyWhen` | src/oduflow/backup_ops.py:309-318 | A whole prune leaves nothing dangling exactly when every manifest it could not read names no revision, the newest one, one that a kept manifest names, or one the chunk store could not read either |
| `BackupStore.OneUnreadableManifestDangles` | src/oduflow/backup_ops.py:309-318 | The concrete run of retention: one transient read error during the listing costs an old snapshot its filestore |
| `BackupStore.Operate` | src/oduflow/backup_ops.py:145-292 | Over any sequence of snapshots and prunes failing or dying anywhere, every manifest stays restorable |
| `OAuthTokenStore.OneLivePairPerLineage` | src/oduflow/oauth_token_store.py:132-139 | Every lineage has at most one live access and one live refresh token |
| `OAuthTokenStore.PruneIsSound` | src/oduflow/oauth_token_store.py:115-129 | Expiry removes access records only and keeps all invariants |
| `OAuthTokenStore.PairIsSound` | src/oduflow/oauth_token_store.py:208-230 | A freshly minted pair keeps partners mutual and lineages unbranched |
| `OAuthTokenStore.TakeOutIsSound` | src/oduflow/oauth_token_store.py:248-252 | Taking a pair out uses both tokens up and ends its lineage's live tokens |
| `OAuthTokenStore.RotationIsSound` | src/oduflow/oauth_token_store.py:232-267 | Rotation uses the old pair up and continues its lineage with the new one for the same owner and scopes |
| `OAuthTokenStore.RevokeIsSound` | src/oduflow/oauth_token_store.py:269-292 | Revocation by either side keeps the invariants and ends the presented token |
| `OAuthTokenStore.RevocationReachesPartner` | src/oduflow/oauth_token_store.py:269-292 | Revocation leaves the partner alive exactly when the presented token is not in the file any more but its partner is |
| `OAuthTokenStore.RevokingExpiredLeavesRefresh` | src/oduflow/oauth_token_store.py:278-283 | Revoking an access token that expiry removed leaves its refresh token usable |
| `OAuthTokenStore.SpentIsGone` | src/oduflow/oauth_token_store.py:248-252 | What was rotated away or revoked is in no record |
| `OAuthTokenStore.Act` | src/oduflow/oauth_token_store.py:208-292 | One request: a file changes only with its modification time, only drawn tokens become live, and a revoked token or a presented refresh token is dead afterwards |
| `OAuthTokenStore.Serve` | src/oduflow/oauth_token_store.py:132-292 | Over any requests to any processes sharing the file: the invariants, every cache equal to the file until another process writes, partners and lineages as minted, and no token that was dead or used up ever live again |
| `OAuthTokenStore.Store.GetAccess` | src/oduflow/oauth_token_store.py:180-195 | Answers from the cache, from the file on a miss; equal to the file whenever no other process wrote since |
| `OAuthTokenStore.Store.GetRefresh` | src/oduflow/oauth_token_store.py:197-204 | The same for refresh tokens, which no expiry removes |
| `OAuthTokenStore.Store.MintPair` | src/oduflow/oauth_token_store.py:208-230 | Adds the pair after pruning, in the file and in the cache; the file's modification time grows, so every other cache counts as outdated |
| `OAuthTokenStore.Store.Rotate` | src/oduflow/oauth_token_store.py:232-267 | Succeeds exactly for a refresh token in the file, and then the modification time grows; the cache is the file afterwards |
| `OAuthTokenStore.Store.Revoke` | src/oduflow/oauth_token_store.py:269-292 | The file loses exactly the revoked pair; the cache is the file afterwards |
| `OAuthTokenStore.RevokedElsewhere` | src/oduflow/oauth_token_store.py:180-195 | A token another process revoked is still served by a process that has it cached |
| `OcaCatalog.CandidatesDiffer` | src/oduflow/oca_catalog.py:214-217 | Numbered candidates differ for different numbers, even after truncation |
| `OcaCatalog.TriedSize` | src/oduflow/oca_catalog.py:214-217 | So many numbered candidates are so many names |
| `OcaCatalog.FreeName` | src/oduflow/oca_catalog.py:211-217 | The search ends after at most one more step than there are taken names, with the first free candidate |
| `OcaCatalog.SortedIsOrdered` | src/oduflow/oca_catalog.py:202-210 | Names that need no rewriting are served first, by name among equals |
| `OcaCatalog.AssignImportNames` | src/oduflow/oca_catalog.py:190-219 | For distinct entries in any order: all names are distinct, a name that needs no rewriting stays plain, and every name has at most 63 characters as long as the numbers fit into one |
| `Registries.SomeNumberIsFree` | src/oduflow/hostname_registry.py:133-142 | More numbers than occupied hostnames leave one free |
| `Registries.Hostnames.AllocateHostname` | src/oduflow/hostname_registry.py:80-151 | A granted hostname is nobody else's and the team is within its cap; when the registry knows every hostname in use, an automatic request fails only for want of a slot |
| `Registries.Hostnames.ReserveEnvironmentSlot` | src/oduflow/hostname_registry.py:154-177 | Reserves within the cap, never changes a registered environment, and fails exactly for want of a slot |
| `Registries.Hostnames.ReleaseHostname` | src/oduflow/hostname_registry.py:180-186 | Removes the environment and keeps hostnames distinct |
| `Registries.Hostnames.ClearHostnameAssignment` | src/oduflow/hostname_registry.py:189-210 | Keeps hostnames distinct; keeps the team within the cap that allocation enforces exactly when the slot is not retained, the environment was registered or active, or a slot was free |
| `Registries.ClearCanExceedCap` | src/oduflow/hostname_registry.py:196-199 | Retaining the slot of an unregistered environment can exceed the cap |
| `Registries.Hostnames.RenameEnv` | src/oduflow/hostname_registry.py:213-231 | The hostname follows the environment, hostnames stay distinct and occupancy does not grow |
| `Registries.RenamedFits` | src/oduflow/hostname_registry.py:213-231 | A renamed environment keeps the team within its cap |
| `Registries.Operate` | src/oduflow/hostname_registry.py:80-231 | Over any operations hostnames stay distinct, and a team within its cap stays within it at every point exactly if no slot is retained, for a cleared hostname of an unknown environment, while none is free |
| `Registries.Ports.AllocatePort` | src/oduflow/port_registry.py:86-140 | Ports stay distinct; a usable port is kept; fails exactly when the whole range is occupied |
| `Registries.Ports.ReleasePort` | src/oduflow/port_registry.py:143-150 | Removes the environment's port only |
| `Registries.Ports.RenameEnv` | src/oduflow/port_registry.py:153-172 | The port follows the environment and ports stay distinct |
| `Registries.OperatePorts` | src/oduflow/port_registry.py:86-172 | Over any operations ports stay distinct, and new ones lie in the range |
| `ExtraAddons.ExtraRepo.ForgetBranch` | src/oduflow/extra_addons.py:286-302 | The marker, then the refspec, then the ref: wherever it stops, other branches stay updated and an empty list stays intended |
| `ExtraAddons.ExtraRepo.ConvertToExplicit` | src/oduflow/extra_addons.py:1139-1174 | The wildcard goes last: wherever it stops, every other downloaded branch stays updated |
| `ExtraAddons.ExtraRepo.UntrackBranch` | src/oduflow/extra_addons.py:1105-1174 | Refused without change for a protected, missing or used branch; wherever it fails, the others stay updated and trying again finishes it, exactly unless a refspec is configured twice, which no attempt changes |
| `ExtraAddons.ExtraRepo.UntrackDeletedBranches` | src/oduflow/extra_addons.py:261-283 | Branches that exist on the remote stay covered; on success every explicit refspec names an existing branch |
| `ExtraAddons.ExtraRepo.RepairRefspecs` | src/oduflow/extra_addons.py:832-855 | Restores the wildcard only for an unmarked repository without any refspec |
| `ExtraAddons.ExtraRepo.FetchBranches` | src/oduflow/extra_addons.py:728-797 | Drops no branch and no coverage; on success every requested branch is there and stays updated, and a branch requested several times without having a refspec is configured as often |
| `ExtraAddons.FetchKeepsSingle` | src/oduflow/extra_addons.py:781-797 | A refspec stays single exactly if the branch was covered before or is requested at most once |
| `ExtraAddons.RepeatedBranchIsStuck` | src/oduflow/extra_addons.py:329-382 | The concrete run: a repository registered with a repeated branch, and both attempts to remove that branch failing |
| `ExtraAddons.Operate` | src/oduflow/extra_addons.py:728-1174 | Over any operations failing or dying anywhere, an empty refspec list stays intended, and a branch that Update refreshed and nobody dropped is still refreshed |
| `ExtraAddons.ExtraRepo.DetachUnusedCheckouts` | src/oduflow/extra_addons.py:1052-1102 | Detaches only checkouts that are unpinned, unreachable and past the grace period, and on success all of them |
| `GitAnalysis.OneMoreFile` | src/oduflow/git_analysis.py:253-366 | One more file keeps the running sets between the order-free sets and those plus the new modules |
| `GitAnalysis.ClassifyChanges` | src/oduflow/git_analysis.py:195-399 | The loop yields the action and module sets of an order-free definition over the set of changed files |
| `GitAnalysis.InAnyOrder` | src/oduflow/git_analysis.py:195-399 | Reordering the changed files changes neither action nor modules |
| `GitAnalysis.HotXmlDependsOnOrder` | src/oduflow/git_analysis.py:294-323 | A view change in a newly installed module is reloadable behind the new manifests and not in front of them |
| `GitAnalysis.HotXmlSameInEveryOrderExactlyWhen` | src/oduflow/git_analysis.py:294-323 | Every order of the changed files gives the same set of reloadable XML exactly when no listed manifest newly installs the module of a listed view change |
| `GitAnalysis.MergeSplits` | src/oduflow/git_analysis.py:591-629 | Merging a joined list equals merging the merges of its parts |
| `GitAnalysis.MergeInGroups` | src/oduflow/git_analysis.py:591-629 | Merging group by group equals merging at once, exactly unless there are only empty groups |
| `GitAnalysis.SilentExactlyWhenCovered` | src/oduflow/git_analysis.py:743-778 | No warning exactly when the request covers the recommendation; following the recommendation is always silent |
| `Scheduler.LastFireTime` | src/oduflow/backup_scheduler.py:60-76 | The greatest occurrence at or before now; the weekday loop terminates |
| `Scheduler.LastFireUnique` | src/oduflow/backup_scheduler.py:60-76 | There is only one such occurrence |
| `Scheduler.SlotState` | src/oduflow/backup_scheduler.py:205-212 | Unless the slot succeeded, the attempts the persisted state accounts to it are those made since the last request |
| `Scheduler.Job.Manual` | src/oduflow/backup_ops.py:271-281 | A snapshot taken by hand counts as the success of its slot, also while a pass is under way |
| `Scheduler.Job.Request` | src/oduflow/backup_scheduler.py:154-162 | A request for a base backup forgets success, attempts and their count |
| `Scheduler.Job.Decide` | src/oduflow/backup_scheduler.py:79-97 | A pass finds the slot due exactly if it has no recorded success and fewer than three attempts since the last request |
| `Scheduler.Job.Run` | src/oduflow/backup_scheduler.py:180-299 | An attempt is made exactly if no lock is in the way; it is recorded with its time and count, and only a successful one records a success |
| `Scheduler.DecideThenRun` | src/oduflow/backup_scheduler.py:395-418 | Whatever happens by hand or by request between a decision and its attempt: the attempt follows a recorded success of its slot exactly if a snapshot by hand ended in the slot and no request came after it |
| `Scheduler.Job.Tick` | src/oduflow/backup_scheduler.py:397-418 | A pass nothing interrupts: the persisted state becomes that of an attempt exactly when uncontended, without success and with fewer than three attempts, and stays as it is otherwise |
| `Scheduler.FirstFreePassTries` | src/oduflow/backup_scheduler.py:79-97 | A slot with fewer than three attempts and no success is tried at the first pass that finds the locks free |
| `Scheduler.Continue` | src/oduflow/backup_scheduler.py:397-456 | Passes and snapshots by hand in one slot, on the job itself, follow the functions that the results below speak of |
| `Scheduler.DecidedBeforeManual` | src/oduflow/backup_scheduler.py:395-418 | The concrete run: a snapshot by hand succeeds while the pass is busy elsewhere, and the slot is tried again |
| `Scheduler.EveryRunKeepsBudget` | src/oduflow/backup_scheduler.py:186-299 | In every run: the budget between any two requests, and over the whole run for a slot that no request splits |
| `Scheduler.RequestIsHarmlessExactlyWhen` | src/oduflow/backup_scheduler.py:154-162 | Whatever passes and snapshots by hand follow a request in a slot, the slot keeps at most three attempts and none after its success over the whole run, exactly if it had not been tried before the request |
| `Scheduler.UntriedSlotShows` | src/oduflow/backup_scheduler.py:200-212 | For the first request in a slot the persisted state tells whether it was tried: an attempt is recorded at or after its beginning |
| `Scheduler.RequestThenContinue` | src/oduflow/backup_scheduler.py:154-162 | A request and what follows it, on the job itself |
| `Scheduler.FourAttempts` | src/oduflow/backup_scheduler.py:154-162 | The concrete run: two failures, a request and two more failures, four attempts in one slot |
| `Scheduler.SuccessThenRequest` | src/oduflow/backup_scheduler.py:154-162 | The concrete run: success, request, and a second attempt in the same slot |
| `Scheduler.SplitSlotsMayKeepBudget` | src/oduflow/backup_scheduler.py:154-162 | A request between two attempts of a slot alone does not break the budget |

## Left out

- Taking over a version 1.85.0 replacement of a PostgreSQL cluster: a one-time journal conversion (src/oduflow/postgres_migration.py:1177-1239).
- The prerequisite checks of the plan that change nothing (environments, extensions, disk space, mounts, labels); each only refuses.
- PostgresMigration.Upgrade.RestoreTemplates: reloading a template is one opaque effect, so what is in the template is not stated; template files are never touched by the upgrade.
- PostgresMigration.Upgrade.RetireArchive: a partly deleted archive looks like a whole one, because only whether deletion began and finished decides what follows.
- PostgresEffects: databases are contents without structure, and a database is not created or dropped by applications during an upgrade.
- LockRuns: waiting times and deadlines of queued callers are choices of the run, so no fairness or timing is stated.
- Locking.LockManager: is always given a lock directory; without one the fields alone are described by `Locking.FieldsExclude`.
- Locking.LockManager.Poll: requires that the queued caller still has its thread lock, which a release by a caller that holds nothing can take from it (`Locking.LockManager.ReleaseEnv`); what then still holds is in `LockStrays`.
- Locking: progress reports, waiter lists and holder texts are not modelled.
- ConfigStore: a value is compared as text, so Python's equality of 1, 1.0 and true is not modelled; labels, notes and masking of secrets are left out.
- ConfigStore.Runtime.ApplyLive: the configuration that classifies changes is the one the process booted with; the fallback to the running one is left out.
- Writing the configuration file, its history and its formatting: library internals around one compare-and-swap.
- BundledUpgrade.EveryHistoryIsCareful: counts a version as accepted when the operator deleted any sidecar over it, because the code does; for the version's own sidecar see `BundledUpgrade.UnaskedLaterExactlyWhen`.
- Naming.SameResourceSameLock: compares full database names; for the stored ones see `Naming.LockCoversDatabaseExactlyWhen`.
- BundledUpgrade: file modes and owners are left out, and nobody but the program writes sidecars, baselines and pending files.
- BackupSwap.Production.Replace: a rename within one directory either happens or raises; an interrupt between the rename and its return is left out.
- BackupSwap.Production.RestoreStaged: starts after staging; downloading, checking and restoring the dump touch neither live half.
- BackupStore: two snapshots taken within one second share an identifier, so the later dump replaces the earlier one; checksums and chunk contents are left out, and the chunk store keeps exactly the revisions it is given.
- BackupStore.Store.PruneRevisions: the chunks behind a revision are the chunk store's own.
- OAuthTokenStore: a token file that cannot be read for a moment counts as what was read; every write is assumed to change the modification time.
- OcaCatalog.AssignImportNames: beyond 10^62 entries names may get longer than 63 characters.
- Registries: malformed registry files read as empty, which only the loading code sees.
- ExtraAddons.ExtraRepo.FetchBranches: history depth, and the refs that a pruning fetch removes, are git's own; a fetch that stops half-way has taken the branches in their order.
- GitAnalysis: the checks on a single file are facts of that file, so parsing manifests, fields and views is left out.
- Scheduler: clock changes, time zones and failing writes of the persisted state are left out, as are the weekly prune's attempt rule over several teams and a process that dies between recording a success and clearing the count.
- Naming.LockCoversDatabaseExactlyWhen: counts characters, so a team identifier outside ASCII, whose bytes are more, is left out.
- Small registries, one-time tokens, the web interface, the MCP plumbing, licensing, branding and telemetry: no property of this kind.
