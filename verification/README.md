# Verification of the Fusion Access operator

A Dafny 4.11 model of the storage side of the OpenShift Fusion Access operator, and proofs about
it. `dafny verify dfyconfig.toml` checks everything.

## What is modelled

**FileSystemClaim.** A claim names devices; a level-triggered reconciler turns them into LocalDisks,
one Filesystem and a StorageClass, and takes them apart again when the claim is deleted.

| file | content |
|---|---|
| `Conditions.dfy` | status conditions and the helper that writes them |
| `Cluster.dfy` | the objects, the API calls that may fail, the log of writes |
| `Backoff.dfy`, `Retries.dfy` | retry delays of blocked deletions, and how they shape runs |
| `ReconcilerSpec.dfy` | what every stage of a reconcile computes |
| `Reconciler.dfy` | the reconciler as an object with loops and early returns, proved equal to it |
| `ReadySoundness.dfy`, `Readiness.dfy` | what Ready stands for, in both directions |
| `WriteContract.dfy` | what every single write may be; the log explains every change |
| `Runs.dfy`, `Webhook.dfy` | runs: reconciles, migrations and steps of everybody else, interleaved |
| `Exclusivity.dfy`, `ClaimLife.dfy`, `MigratedClaims.dfy`, `DeletionOrder.dfy` | invariants of all runs |
| `Creation.dfy`, `Provisioning.dfy`, `Convergence.dfy`, `DeletionTermination.dfy` | progress |
| `Outcomes.dfy`, `CreationOutcomes.dfy`, `ProvisioningOutcomes.dfy`, `DeletionOutcomes.dfy` | what one undisturbed reconcile does in each phase, by the fields of the objects it finds |

A reconcile reads one snapshot of the claim and patches the stored copy. Each API call takes one
element of a list of faults, so every statement about a reconcile or a run holds whichever calls
fail; a statement that needs undisturbed calls starts from an empty list of faults. Every write is
logged with the world it was made in. `WriteContract.Allowed` says what one write may be, and
`ReconcileContracted` proves that every write of every reconcile is allowed and that replaying the
log gives the new world. The theorems about runs are inductions over contracted writes.

Between reconciles others may do anything within `Runs.Environment`: ask for deletion, edit devices
as far as the webhook lets them, change status and labels of disks and filesystems, add disks and
filesystems that no claim owns, change volumes, classes, nodes and discovery results. A disk or
filesystem vanishes only after the controller has deleted it: others never delete one themselves,
nor change its owners, device or spec.

**Migration from v1.0.** `MigrationSpec.dfy` gives the cluster after a migration as a function that
mentions no order; `Migration.dfy` is the migration with its map iteration in arbitrary order, proved
to reach it; `MigrationMeaning.dfy` says what becomes of each object, field by field;
`MigrationProofs.dfy` proves idempotence, exactly when an interrupted run can be resumed, and the
hand-over to the reconciler. Calls fail per object (`Mishaps`); a crash is the case in which every
later call fails.

**Supporting algorithms.** `Discovery.dfy` (devices without repeated WWNs), `Luns.dfy` (shared disks,
counted and intersected), `DockerConfig.dfy` (registry credentials accumulated over runs),
`PodDisruptionBudget.dfy` (its life cycle during upgrades), `Debounce.dfy` (udev events).

## Where the code is not what one would expect

- A migration interrupted between the last disk of a group and its filesystem or class is not
  completed by the next run: no candidate is left. `MigrationProofs.ResumeIff` gives the exact
  condition and `StrandedExample` an input that fails it.
- A migration adopts a legacy disk for an established claim of the same name although the claim does
  not list its device; the devices then no longer match, and the reconciler can only report it.
  `ClaimLife.MigrationBreaksMatch` is such a world, `MigrationKeepsMatchIff` the exact condition.
  In the same way a migration can hand a disk and a filesystem to a claim whose deletion is about to
  end; the next reconcile removes the finalizer and leaves both behind.
  `DeletionOrder.MigrationLeavesBehind` is such a world, `NothingLeftBehind` the exact condition.
- A reconcile that reaches the aggregate never sets DeviceValidated: `Readiness.AggregateComplete`
  shows that, with everything else in place, Ready then depends on that condition alone.
- When LocalDiskCreated has failed, the controller enters the creation of disks again on a node picked
  at random. If that node knows the devices by other WWNs, it makes a second set of disks
  (`Creation.SecondPassMakesMore`). `Convergence.ReadyOnceHealthy` therefore asks the storage nodes to
  agree on the WWN of the first device.
- Counting entries per WWN finds the shared disks only if no node repeats a WWN
  (`Luns.RepeatedWwnFoolsCounting`), and for a single node it lists every disk while the
  intersection form reports none (`Luns.CountingIsIntersecting`). The comment on
  `outDevicesUsedByLocalDisks` speaks of a suffix match and of a disk whose name does not match; the
  code keeps a device if no disk name equals its WWN, and so does the model.
- An upgrade that finds a labelled or old PodDisruptionBudget keeps label and age, so that budget
  can be deleted before the new build starts (`PodDisruptionBudget.UpgradeKeepsBudget`). The two log
  lines of `createPodDisruptionBudget` are swapped.
- The two ways of scanning conditions agree only with at most one condition per type
  (`Conditions.TrueIsFirst`, `TrueIsNotFirstWithoutUnique`).
- The pass that creates disks stops at the first one that already exists, so
  `Creation.PassIsBijective` and `Convergence` start without disks of those names.
- Deletion trusts conditions, not existence. `DeletionOrder.DeletionInOrder` therefore starts with
  the three conditions True, and `NothingLeftBehind` from the weaker invariant `Vacating`.

## Model

| member | source | states |
|---|---|---|
| Conditions.UpdateCondition | internal/utils/utils.go:492-511 | after the update the first condition of the type is the new one, all other types read as before, one condition per type is kept |
| Conditions.TrueIsFirst | internal/controller/filesystemclaim/filesystemclaim_controller.go:919-927 | with one condition per type the any-match scan equals the first-match lookup |
| Conditions.TrueIsNotFirstWithoutUnique | internal/controller/filesystemclaim/filesystemclaim_controller.go:919-927 | a list with a stale duplicate on which the two scans disagree |
| Backoff.DelayBounds | internal/controller/filesystemclaim/filesystemclaim_controller.go:805-845 | every delay lies in [30s, 10min] and is at most max(30s, twice the elapsed time) |
| Backoff.DelayMonotone | internal/controller/filesystemclaim/filesystemclaim_controller.go:805-845 | the longer blocked, the longer the delay |
| Backoff.OnTimeClosedForm | internal/controller/filesystemclaim/filesystemclaim_controller.go:818-844 | on-time retries are delayed by 30s, 1m, 2m, 4m, 8m, then 10m for ever |
| Backoff.DelayIsPower | internal/controller/filesystemclaim/filesystemclaim_controller.go:831-844 | from half a minute on, the delay in minutes is the largest power of two not above the elapsed time plus one, at most ten |
| Backoff.FirstDelay | internal/controller/filesystemclaim/filesystemclaim_controller.go:831-833 | half a minute before that |
| Backoff.LateScheduleIsLater | internal/controller/filesystemclaim/filesystemclaim_controller.go:805-845 | a schedule with no retry earlier than requested is pointwise no earlier than the on-time one |
| Backoff.RetriesByTime | internal/controller/filesystemclaim/filesystemclaim_controller.go:805-845 | at most 5 + T/10min retries by time T of an unchanged blocking condition |
| Backoff.OnTimeIsSchedule | internal/controller/filesystemclaim/filesystemclaim_controller.go:805-845 | the on-time retries are themselves such a schedule, so the comparison is attained |
| Backoff.NewBlockerStartsOver | internal/controller/filesystemclaim/filesystemclaim_controller.go:811-818 | no recorded blocker or another reason starts over; a known one is aged by its transition time |
| Retries.BlockedDeletionBacksOff | internal/controller/filesystemclaim/filesystemclaim_controller.go:1570-1646 | in every run, from the first attempt at a new blocker on and while the recorded condition stays as it is: if no attempt comes earlier than the one before it asked for, the k-th retry is no earlier than the k-th on-time one and at most 5 + T/10min retries come by time T |
| Retries.AttemptOutcome | internal/controller/filesystemclaim/filesystemclaim_controller.go:805-845 | an attempt at a blocked deletion asks for exactly the back-off delay and records the blocker unless it is recorded already |
| Retries.UndisturbedAttempt | internal/controller/filesystemclaim/filesystemclaim_controller.go:258-300 | an undisturbed reconcile of a blocked deletion is such an attempt |
| Reconciler.FileSystemClaimReconciler.ReconcileRequest | internal/controller/filesystemclaim/filesystemclaim_controller.go:143-227 | one whole reconcile, whichever calls fail, leaves the state, the log and the outcome of `ReconcilerSpec.Reconcile` |
| Reconciler.FileSystemClaimReconciler.EnsureLocalDiskStage | internal/controller/filesystemclaim/filesystemclaim_controller.go:303-478 | device check, validation or creation of disks, as `EnsureLocalDisks` |
| Reconciler.FileSystemClaimReconciler.CreateLocalDisks | internal/controller/filesystemclaim/filesystemclaim_controller.go:385-478 | the creation loop with its early returns, as `CreateDisks` |
| Reconciler.FileSystemClaimReconciler.ValidateDevices | internal/controller/filesystemclaim/filesystemclaim_controller.go:975-1052 | succeeds only, and with no failing call exactly, if there is a node with both labels and the result of each has an entry for every device |
| Reconciler.FileSystemClaimReconciler.SyncLocalDiskStage | internal/controller/filesystemclaim/filesystemclaim_controller.go:483-562 | health of the owned disks into LocalDiskCreated, as `SyncLocalDisks` |
| Reconciler.FileSystemClaimReconciler.EnsureFilesystemStage | internal/controller/filesystemclaim/filesystemclaim_controller.go:565-656 | create, repair or refuse the filesystem, as `EnsureFilesystem` |
| Reconciler.FileSystemClaimReconciler.SyncFilesystemStage | internal/controller/filesystemclaim/filesystemclaim_controller.go:659-711 | health of the filesystem into FileSystemCreated, as `SyncFilesystem` |
| Reconciler.FileSystemClaimReconciler.EnsureClassStage | internal/controller/filesystemclaim/filesystemclaim_controller.go:714-763 | create or repair the storage class, as `EnsureClass` |
| Reconciler.FileSystemClaimReconciler.SyncReadyStage | internal/controller/filesystemclaim/filesystemclaim_controller.go:766-785 | aggregate the four conditions into Ready, as `SyncReady` |
| Reconciler.FileSystemClaimReconciler.HandleDeletionStages | internal/controller/filesystemclaim/filesystemclaim_controller.go:258-300 | the deletion machine, as `HandleDeletion` |
| Reconciler.FileSystemClaimReconciler.CheckClassUsageStage | internal/controller/filesystemclaim/filesystemclaim_controller.go:1570-1598 | never lets the deletion pass while a volume of the class is bound or released and not being deleted; with no failing call it lets it pass otherwise |
| Reconciler.FileSystemClaimReconciler.DeleteLocalDisks | internal/controller/filesystemclaim/filesystemclaim_controller.go:1730-1774 | deletes every owned disk, or records that none is left, as `DeleteDisksStage` |
| ReadySoundness.DisksGate | internal/controller/filesystemclaim/filesystemclaim_controller.go:308-360 | a reconcile that passes the disk stages with LocalDiskCreated True saw exactly the disks of its devices, all usable, and changed nothing |
| ReadySoundness.AggregateSound | internal/controller/filesystemclaim/filesystemclaim_controller.go:143-227 | reaching the aggregate with all four conditions True means disks, filesystem and class are really as promised |
| WriteContract.ReconcileContracted | internal/controller/filesystemclaim/filesystemclaim_controller.go:143-227 | every write of every reconcile is allowed by the contract and the log replays to the new world |
| WriteContract.DeletionNeverIdle | internal/controller/filesystemclaim/filesystemclaim_controller.go:258-300 | with the finalizer present the deletion path never reports nothing to do |
| CreationOutcomes.FinalizerOutcome | internal/controller/filesystemclaim/filesystemclaim_controller.go:232-256 | an undisturbed reconcile of a live claim without finalizer adds it and does nothing else |
| CreationOutcomes.ValidationOutcome | internal/controller/filesystemclaim/filesystemclaim_controller.go:367-383 | an undisturbed validation leaves DeviceValidated True exactly if there is a storage node and the result of each has an entry for every device, else DeviceValidated and Ready False; nothing else changes |
| CreationOutcomes.ValidatedDevicesExist | internal/controller/filesystemclaim/filesystemclaim_controller.go:975-1051 | over all runs, whatever fails, DeviceValidated is written True only in such worlds |
| CreationOutcomes.CreationOutcome | internal/controller/filesystemclaim/filesystemclaim_controller.go:385-478 | an undisturbed creation makes disks on one storage node, device by device, each named by the WWN of the first entry for its device; it stops at the first device without a usable WWN, and reports it, or at the first disk that exists |
| CreationOutcomes.MismatchOutcome | internal/controller/filesystemclaim/filesystemclaim_controller.go:308-360 | a device without an owned disk, or an owned disk of another device, makes Ready False with ImmutableFieldModified, and nothing else happens |
| ProvisioningOutcomes.DisksOutcome | internal/controller/filesystemclaim/filesystemclaim_controller.go:483-562 | an undisturbed reconcile that finds disks leaves LocalDiskCreated True exactly if all are usable; else the first that is not gives the reason, failed for a disk used by a foreign filesystem or none, in progress otherwise |
| ProvisioningOutcomes.NoDisksOutcome | internal/controller/filesystemclaim/filesystemclaim_controller.go:496-510 | without owned disks LocalDiskCreated is in progress if the devices were validated, and left alone otherwise |
| ProvisioningOutcomes.FilesystemMissing | internal/controller/filesystemclaim/filesystemclaim_controller.go:604-627 | with verified disks and no filesystem one is made of exactly these disks; if its name is taken that is reported |
| ProvisioningOutcomes.FilesystemsTooMany | internal/controller/filesystemclaim/filesystemclaim_controller.go:646-653 | two owned filesystems are only reported |
| ProvisioningOutcomes.FilesystemRepaired | internal/controller/filesystemclaim/filesystemclaim_controller.go:629-644 | a single filesystem that differs is given the specification for exactly the owned disks |
| ProvisioningOutcomes.FilesystemOutcome | internal/controller/filesystemclaim/filesystemclaim_controller.go:659-711 | with the right specification FileSystemCreated is left True exactly if the filesystem reports success and health |
| ProvisioningOutcomes.ClassOutcome | internal/controller/filesystemclaim/filesystemclaim_controller.go:714-763 | missing, altered or right, the class is right afterwards and StorageClassCreated True |
| ProvisioningOutcomes.ReadyOutcome | internal/controller/filesystemclaim/filesystemclaim_controller.go:766-785 | with everything in place Ready is left True exactly if the devices were validated |
| ProvisioningOutcomes.NodesFailureReported | internal/controller/filesystemclaim/filesystemclaim_controller.go:386-393 | a node list that cannot be read is reported as a failed LocalDiskCreated and Ready, and nothing else happens |
| ProvisioningOutcomes.DiscoveryFailureReported | internal/controller/filesystemclaim/filesystemclaim_controller.go:403-411 | so is a discovery result, at any device of the pass |
| ProvisioningOutcomes.DiskFailureReported | internal/controller/filesystemclaim/filesystemclaim_controller.go:437-446 | so is a disk that cannot be created |
| ProvisioningOutcomes.FilesystemFailureReported | internal/controller/filesystemclaim/filesystemclaim_controller.go:617-622 | a filesystem that cannot be created is reported as a failed FileSystemCreated and Ready |
| ProvisioningOutcomes.ClassFailureReported | internal/controller/filesystemclaim/filesystemclaim_controller.go:731-737 | a class that cannot be created as a failed StorageClassCreated and Ready |
| Readiness.ReadyIsNeverPremature | internal/controller/filesystemclaim/filesystemclaim_controller.go:766-785 | Ready=True is only ever written where device set, disk health, the one filesystem with its pool and the class are all as desired |
| Readiness.QuietReadyIsSound | internal/controller/filesystemclaim/filesystemclaim_controller.go:143-227 | a quiet reconcile of a live claim that reports Ready, migrated or not, sees the same |
| Readiness.AggregateComplete | internal/controller/filesystemclaim/filesystemclaim_controller.go:143-227 | conversely, an undisturbed reconcile that reaches the aggregate in a provisioned world finds the disk, filesystem and class conditions True, so all four exactly if the devices were validated; conditions with the migration's reason are taken to be True, which `ClaimLife.RunKeepsMarksTrue` shows for all runs |
| Runs.RunKeepsForm | internal/utils/utils.go:492-511 | distinct names and one condition per type hold throughout every run |
| Webhook.BlocksExactly | api/v1alpha1/filesystemclaim_webhook.go:88-126 | the webhook blocks exactly the device edits of claims whose LocalDiskCreated is True as the controller sees it |
| Exclusivity.RunKeepsExclusive | internal/controller/filesystemclaim/filesystemclaim_controller.go:1341-1364 | in every interleaving of reconciles, migrations and others, a disk has at most one claim as owner |
| Exclusivity.NoSharedWwn | internal/controller/filesystemclaim/filesystemclaim_controller.go:399-472 | two claims never own a disk for the same WWN at once |
| Exclusivity.PoolsDisjoint | internal/controller/filesystemclaim/filesystemclaim_controller.go:565-656 | while no claim is deleted, pools written for different claims share no disk, over the whole run |
| ClaimLife.FilesystemGate | internal/controller/filesystemclaim/filesystemclaim_controller.go:569-644 | over all runs a filesystem is only created or patched where the owned disks are exactly those of the devices, all usable, and its pool lists exactly these |
| ClaimLife.MismatchOnlyReported | internal/controller/filesystemclaim/filesystemclaim_controller.go:308-360 | devices edited behind a True LocalDiskCreated are only ever reported |
| ClaimLife.MatchLasts | api/v1alpha1/filesystemclaim_webhook.go:88-126 | with the webhook, over all runs in which the claim stays live and LocalDiskCreated True, the device set keeps matching if and only if every migration adopts only fitting disks for the claim |
| ClaimLife.MigrationKeepsMatchIff | internal/controller/filesystemclaim/migration.go:389-411 | a migration keeps the match exactly if every disk it adopts for the claim has one of the claim's devices and is not terminating |
| ClaimLife.MigrationBreaksMatch | internal/controller/filesystemclaim/migration.go:389-411 | an established, matching claim whose devices no longer match after a migration |
| ClaimLife.NothingLegacyFits | internal/controller/filesystemclaim/migration.go:257-284 | a migration without a legacy disk of the claim's name adopts nothing for it, so it keeps the match |
| ClaimLife.RunKeepsMarksTrue | internal/controller/filesystemclaim/migration.go:443-483 | throughout every run the conditions left by migrations are True |
| ClaimLife.MarkLasts | internal/controller/filesystemclaim/filesystemclaim_controller.go:1177-1213 | a condition left by the migration is never replaced by another True one without going False first |
| MigratedClaims.MigrationHandsOver | internal/controller/filesystemclaim/migration.go:389-495 | a claim made by the migration, its disks adopted and its status written, has matching disks, a True LocalDiskCreated and a taken filesystem name, whatever happens to filesystem and class; the filesystem is its own if the migration got that far |
| MigratedClaims.MigratedClaimLeftAlone | internal/controller/filesystemclaim/filesystemclaim_controller.go:308-360 | in every run after that, further migrations and deletions included, in which the claim is there and its disks stay healthy unless it is torn down, no disk or filesystem is created for it |
| MigratedClaims.RunLeavesAlone | internal/controller/filesystemclaim/filesystemclaim_controller.go:629-644 | the same from any world in which the claim is torn down or has a lasting disk, a True LocalDiskCreated and its filesystem name taken by no other claim's filesystem; and this lasts |
| DeletionOrder.DeletionInOrder | internal/controller/filesystemclaim/filesystemclaim_controller.go:1570-1788 | over whole runs that start with the three conditions True and in which no claim of that name is made anew: class deleted only if unused, filesystem only if single, labelled and after StorageClassCreated was taken off True where the class was absent, disks only after the same for FileSystemCreated and the filesystem, finalizer only after the same for LocalDiskCreated and the disks; nothing created meanwhile |
| DeletionOutcomes.DeletedClassIsUnused | internal/controller/filesystemclaim/filesystemclaim_controller.go:1496-1548 | over all runs, whatever fails, every volume of a class that is deleted is being deleted itself or neither bound nor released |
| DeletionOutcomes.DeletionIsAnnounced | internal/controller/filesystemclaim/filesystemclaim_controller.go:1551-1567 | the first undisturbed reconcile of a deletion makes Ready False with DeletionRequested and does nothing else |
| DeletionOutcomes.VolumesBlock | internal/controller/filesystemclaim/filesystemclaim_controller.go:1570-1598 | one bound or released volume of the class that is not being deleted stops the deletion with StorageClassInUse and a delay; nothing is deleted |
| DeletionOutcomes.HoldersAreShown | internal/controller/filesystemclaim/filesystemclaim_controller.go:1514-1547 | the message names the first five such volumes and counts the others |
| DeletionOutcomes.LabelBlocks | internal/controller/filesystemclaim/filesystemclaim_controller.go:1601-1646 | so does, after the volumes, an owned filesystem without the label |
| DeletionOutcomes.SecondFilesystemFails | internal/controller/filesystemclaim/filesystemclaim_controller.go:1617-1619 | a second owned filesystem is an error, and nothing is done |
| DeletionOutcomes.ClassGoesIff | internal/controller/filesystemclaim/filesystemclaim_controller.go:1570-1682 | an undisturbed reconcile of an announced deletion deletes the class exactly if StorageClassCreated is True and neither a volume nor a label blocks |
| DeletionOutcomes.UnblockedGoesOn | internal/controller/filesystemclaim/filesystemclaim_controller.go:1649-1788 | unblocked, it deletes the class, the one filesystem or all disks and nothing else, or takes off the condition of what is gone, or lets the claim go |
| DeletionOutcomes.DeletionShowsFailures | internal/controller/filesystemclaim/filesystemclaim_controller.go:258-300 | a reconcile of a deletion that reports no failure has done exactly what an undisturbed one does |
| DeletionOrder.NothingLeftBehind | internal/controller/filesystemclaim/filesystemclaim_controller.go:1685-1788 | over runs in which the claim is not made anew: what its deletion has seen absent stays absent if and only if every migration spares the claim; then no owned filesystem exists when a disk is deleted, and no owned disk either when the finalizer goes |
| DeletionOrder.MigrationLeavesBehind | internal/controller/filesystemclaim/migration.go:499-569 | a claim whose deletion is about to end, to which a migration hands a disk and a filesystem that the next reconcile leaves behind |
| DeletionOrder.NothingLegacySpares | internal/controller/filesystemclaim/migration.go:257-284 | a migration without a legacy disk of the claim's name spares it |
| DeletionOrder.MigrationKeepsVacatingIff | internal/controller/filesystemclaim/migration.go:499-569 | a migration spares the claim, that is adopts nothing of a kind its deletion has seen absent, exactly if what was absent stays absent |
| DeletionTermination.AtMostEight | internal/controller/filesystemclaim/filesystemclaim_controller.go:258-300 | the measure of what is left to delete is at most eight, and zero exactly when the claim is gone |
| DeletionTermination.RoundFalls | internal/controller/filesystemclaim/filesystemclaim_controller.go:1551-1788 | every undisturbed, unblocked reconcile lowers it |
| DeletionTermination.DeletionTerminates | internal/controller/filesystemclaim/filesystemclaim_controller.go:258-300 | after eight such rounds the claim is gone |
| DeletionTermination.RoundExists | internal/controller/filesystemclaim/filesystemclaim_controller.go:258-300 | every unblocked deletion can go on: if what a reconcile deleted disappears, nothing blocks the next one |
| Creation.PassIsBijective | internal/controller/filesystemclaim/filesystemclaim_controller.go:385-478 | one undisturbed pass makes exactly one disk per device: distinct names, one storage node, device set equal to the claim's |
| Creation.DifferentWwns | internal/controller/filesystemclaim/filesystemclaim_controller.go:1055-1098 | in a result without repeated WWNs distinct devices get distinct WWNs |
| Creation.SecondPassMakesMore | internal/controller/filesystemclaim/filesystemclaim_controller.go:308-478 | entered again after a failure, on a node that knows the devices by unused WWNs, the creation makes a second disk for every device |
| Provisioning.BuiltLeads | internal/controller/filesystemclaim/filesystemclaim_controller.go:303-781 | once the disks are there, an undisturbed reconcile leaves the world alone, makes the filesystem or the class, or writes one report that keeps the claim on its way, whatever is healthy |
| Convergence.NineWritingReconciles | internal/controller/filesystemclaim/filesystemclaim_controller.go:143-227 | the first nine reconciles of a fresh claim with good devices and healthy resources all write |
| Convergence.ReadyAfterNine | internal/controller/filesystemclaim/filesystemclaim_controller.go:143-227 | from then on the claim is Ready and provisioned and every reconcile leaves the state as it is |
| Convergence.ReadyOnceHealthy | internal/controller/filesystemclaim/filesystemclaim_controller.go:143-227 | if the storage nodes agree on the first device, the same nine rounds after the resources are healthy for good, however long they took and whatever was reported meanwhile |
| Convergence.RunsExist | internal/controller/filesystemclaim/filesystemclaim_controller.go:143-227 | from every fresh claim there are such runs of every length |
| Convergence.WaitingRunsExist | internal/controller/filesystemclaim/filesystemclaim_controller.go:143-227 | and, if the storage nodes agree, such runs in which the resources take any number of rounds to become healthy |
| Convergence.FreshExample | internal/controller/filesystemclaim/filesystemclaim_controller.go:143-227 | a world with a fresh claim for two devices, on whose WWNs the storage nodes agree |
| Convergence.RoundAdvances | internal/controller/filesystemclaim/filesystemclaim_controller.go:303-781 | a round that starts with healthy resources takes a claim with k writing reconciles left to one with k - 1 |
| Convergence.StaysOnTrack | internal/controller/filesystemclaim/filesystemclaim_controller.go:303-781 | if the storage nodes agree, no rounds, healthy or not, take the claim off its way, and at most nine writing reconciles are left |
| Migration.GroupsPartition | internal/controller/filesystemclaim/migration.go:257-284 | every candidate is in exactly one group, once |
| Migration.GroupByFilesystem | internal/controller/filesystemclaim/migration.go:257-284 | the loop yields exactly the groups of the candidates, disks and devices in list order |
| Migration.Migrator.RunMigration | internal/controller/filesystemclaim/migration.go:76-151 | whatever the order of the map iteration, the run leaves `MigrationSpec.Migrate`; no disk changes that is owned, migrated, exempted, oddly named or incomplete; successes plus failures are the groups |
| Migration.Migrator.MigrateGroup | internal/controller/filesystemclaim/migration.go:364-386 | one group changes only its own claim, disks, filesystem and class, as far as its calls succeed |
| MigrationMeaning.OthersLeftAlone | internal/controller/filesystemclaim/migration.go:190-235 | whatever fails, a disk the user exempted, a migrated or owned one, one not named like a WWN or without filesystem, device or node is left alone |
| MigrationMeaning.DiskOutcome | internal/controller/filesystemclaim/migration.go:499-523 | a disk is given owner and labels exactly if it is a candidate, its group gets its claim and no update of the group fails up to its own |
| MigrationMeaning.CalmDiskOutcome | internal/controller/filesystemclaim/migration.go:287-361 | an undisturbed run adopts exactly the candidates whose filesystem exists and whose class, if any, has the right provisioner |
| MigrationMeaning.FilesystemOutcome | internal/controller/filesystemclaim/migration.go:525-538 | the filesystem of a group all of whose disks were updated is given owner and labels unless it has that owner; others stay |
| MigrationMeaning.ClassOutcome | internal/controller/filesystemclaim/migration.go:541-566 | after that its class is labelled unless it is already; others stay |
| MigrationMeaning.SuccessIff | internal/controller/filesystemclaim/migration.go:108-141 | a group counts as a success exactly if all this was done, in a dry run if its objects are in order |
| MigrationMeaning.ClaimOutcome | internal/controller/filesystemclaim/migration.go:389-495 | exactly the names with a candidate that get that far have a new claim, for the devices of the candidates in list order; claims that exist stay |
| MigrationMeaning.NothingElse | internal/controller/filesystemclaim/migration.go:364-386 | nothing else changes |
| MigrationProofs.SecondRunIsIdle | internal/controller/filesystemclaim/migration.go:76-151 | after a run in which all groups succeed another one changes nothing |
| MigrationProofs.CrashIsMishap | internal/controller/filesystemclaim/migration.go:108-141 | a run cut off between groups is a run whose later calls fail |
| MigrationProofs.ResumeIff | internal/controller/filesystemclaim/migration.go:499-569 | a second run restores the ownership of an uninterrupted one if and only if every valid group left unfinished still has an un-adopted disk |
| MigrationProofs.StrandedExample | internal/controller/filesystemclaim/migration.go:190-235 | one disk, one filesystem and a first run that fails between the two: no second run gives the ownership of an uninterrupted one |
| MigrationProofs.HandOver | internal/controller/filesystemclaim/migration.go:389-495 | a new claim owns disks, exactly those of its devices |
| MigrationProofs.MigratedStatus | internal/controller/filesystemclaim/migration.go:443-483 | the written status has one condition per type, all True, StorageClassCreated exactly if there is a class |
| Discovery.UniqueDevices | internal/devicefinder/discovery/discovery.go:215-229 | the WWNs of the sample once each, with their last entries, in order of first occurrence |
| Discovery.DedupedIsDetermined | internal/devicefinder/discovery/discovery.go:215-229 | that meaning determines the result |
| Discovery.SecondRunKeeps | internal/devicefinder/discovery/discovery.go:215-229 | de-duplicating again changes nothing |
| Luns.RepresentativesAreShared | console/src/domain/use-cases/use_luns_use_case.ts:235-254 | the WWNs picked by counting are exactly those on every node, once each |
| Luns.RepresentativeOfFirstNode | console/src/domain/use-cases/use_luns_use_case.ts:252-254 | the entry shown for a shared disk is that of the first node |
| Luns.CountingIsIntersecting | console/src/ui/storage-clusters/view-models/use_storage_clusters_nodes_selection_table_view_model.ts:74-91 | with per-node unique WWNs the two counts agree if and only if there is not exactly one node or it has no device |
| Luns.RepeatedWwnFoolsCounting | console/src/domain/use-cases/use_luns_use_case.ts:235-254 | with a repeated WWN they can differ |
| Luns.LunsAreSharedAndUnused | console/src/domain/use-cases/use_luns_use_case.ts:204-222 | a WWN is offered as a LUN exactly if every node has it and no local disk is named like it |
| Luns.LunsAreOfFirstNode | console/src/domain/use-cases/use_luns_use_case.ts:204-254 | the whole list: the devices of the first node that every node has and no disk is named like, in its order, unselected |
| DockerConfig.MergeConfigs | internal/utils/utils.go:413-432 | the nested loops give one result whatever the key order: every key but "auths" has the value of the source if the source has it, else that of the destination |
| DockerConfig.AuthsOfMerged | internal/utils/utils.go:415-425 | the source's credentials win, the others stay |
| DockerConfig.OtherKeysOfMerged | internal/utils/utils.go:426-429 | every other key has the value of the source if the source has it, else that of the destination |
| DockerConfig.MergeIsAssociative | internal/utils/utils.go:392-433 | merging is associative |
| DockerConfig.MergeIsIdempotent | internal/utils/utils.go:392-433 | merging a source twice is merging it once |
| DockerConfig.Secret.MergeFrom | internal/utils/utils.go:454-489 | all entries of a docker secret are merged in some order, the first failure stops, other entries and types are kept |
| DockerConfig.MergeRegistrySecret | internal/controller/kernelmodule/kernelmodule.go:296-322 | the IBM pull secret, then the registry secret, merged into the stored one |
| DockerConfig.MergeSucceeds | internal/utils/utils.go:392-489 | exactly when a merge succeeds |
| DockerConfig.MergeFails | internal/utils/utils.go:392-489 | which failure is reported otherwise |
| DockerConfig.CountsIff | internal/controller/kernelmodule/kernelmodule.go:296-322 | exactly when a run changes the stored secret |
| DockerConfig.LatestSupplierWins | internal/controller/kernelmodule/kernelmodule.go:296-322 | over any runs each registry holds the credential of the latest supplier that had it, or its first one |
| DockerConfig.LatestSettingWins | internal/controller/kernelmodule/kernelmodule.go:296-322 | over any runs every other key holds the value of the latest supplier that had it, or its first one |
| DockerConfig.RegistriesLast | internal/controller/kernelmodule/kernelmodule.go:296-322 | no registry is ever lost |
| PodDisruptionBudget.FusionAccessReconciler.ManagePodDisruptionBudget | internal/controller/fusionaccess_controller.go:811-848 | as `Manage`; with no failing call a running build leaves the budget labelled and otherwise as it was, and without one a labelled or overdue budget goes |
| PodDisruptionBudget.FusionAccessReconciler.UpdateStorageScaleVersion | internal/controller/fusionaccess_controller.go:449-466 | the budget is created or updated before the version is written, as `UpdateVersion` |
| PodDisruptionBudget.FusionAccessReconciler.ReconcileBudget | internal/controller/fusionaccess_controller.go:296-338 | one reconcile raises the version or manages the budget, as `Reconcile`, the step of the runs below |
| PodDisruptionBudget.LifeCycle | internal/controller/fusionaccess_controller.go:739-848 | in every run the label implies a build seen since creation, deletion follows a listing without builds and needs such a build or an age over 30 minutes, the version is only written while the budget exists |
| PodDisruptionBudget.BuildSeenMeaning | internal/controller/fusionaccess_controller.go:804-810 | what "seen since creation" says about the log |
| PodDisruptionBudget.UpgradeKeepsBudget | internal/controller/fusionaccess_controller.go:739-771 | after an upgrade with a budget already there, the next reconcile without builds deletes it exactly if it is labelled or overdue |
| PodDisruptionBudget.ManagedBudget | internal/controller/fusionaccess_controller.go:811-848 | what an undisturbed reconcile leaves: with builds the budget, labelled; without, none if it was labelled or older than thirty minutes, else the same |
| PodDisruptionBudget.UpgradedBudget | internal/controller/fusionaccess_controller.go:449-466 | an undisturbed upgrade leaves the new version and a budget that lets no build pod be evicted, with the labels and age of one already there |
| PodDisruptionBudget.BuildEndsBudget | internal/controller/fusionaccess_controller.go:811-848 | over runs: once a build was seen the budget stays labelled while it exists, and the next undisturbed reconcile without builds removes it |
| PodDisruptionBudget.LabelStays | internal/controller/fusionaccess_controller.go:811-848 | over runs in which the budget exists, whatever fails, a label stays |
| PodDisruptionBudget.FailuresShow | internal/controller/fusionaccess_controller.go:296-338 | a reconcile that reports no failure has done exactly what an undisturbed one does |
| Debounce.UdevBlockMonitor | internal/devicefinder/discovery/monitor.go:20-50 | the nested loops emit what the trace prescribes and return exactly if the source closes |
| Debounce.EmissionsSpaced | internal/devicefinder/discovery/monitor.go:32-50 | consecutive emissions are at least a period apart |
| Debounce.EveryEventAccounted | internal/devicefinder/discovery/monitor.go:32-50 | a received event is held or falls into the window of the one held, which is then emitted after the window unless the source closes first |
| Debounce.EveryEmissionReceived | internal/devicefinder/discovery/monitor.go:32-50 | an emission is an event received with nothing pending, at least a period before |

## Left out

- Transport, caches, watches, predicates, RetryOnConflict and events: reads and writes are atomic and may fail.
- Steps of others in the middle of a reconcile: they happen between reconciles. So do migrations, each as one step, although the operator runs them beside its controllers.
- A list of volumes that fails with NotFound, which the code takes for an empty list: a list never fails so.
- ObservedGeneration, UIDs, namespaces (one is modelled) and annotations other than those of classes; owner references identify claims by name.
- Message text: messages are values of a datatype, equal when the controller's comparison finds them equal.
- The whole-second granularity of transition times, and the value of the migration timestamp, which is one constant.
- Claims with a foreign finalizer, which after the removal of the controller's own one would fall through to the creation path.
- The order in which the API server lists disks and filesystems is taken to be stable, and stored specs to come back unchanged.
- Retries.BlockedDeletionBacksOff: speaks of one unchanged blocking condition, because a changed message restarts its transition time.
- Convergence.ReadyOnceHealthy: nobody changes the claim or takes the names of its objects meanwhile, and no call fails.
- Disks and filesystems that others delete on their own: `Runs.DisksPersist` and `FilesystemsEvolve` exclude it.
- MigratedClaims.MigratedClaimLeftAlone: says nothing about a claim whose status update failed, which starts with no condition at all.
- DockerConfig.LatestSupplierWins: sources have one data entry, as pull secrets have; with several the order of the entries is arbitrary and decides.
- Object.entries lists integer-like keys first; WWNs are not integer-like and the order of the LUN list is that of first occurrence.
- Capacity formatting, selection state and the rest of the console, manifest application, image checks, daemonsets.
- getDiscoverdDevices and ignoreDevices before de-duplication, and the caching of a device list before its status update: single branches.
- matchUdevEvent, JSON and base64 encoding: decoded values and events already matched.
