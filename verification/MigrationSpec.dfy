/** The v1.0 to v1.1 migration as one function of the cluster: what every object is after the
    run, given which API calls fail.  Nothing here mentions the order in which groups are
    processed.  Timestamps are one constant. */
module MigrationSpec {
  import opened Conditions
  import opened Cluster
  import opened ReconcilerSpec

  const MIGRATION_SOURCE := "v1.0"
  const TIMESTAMP_ANNOTATION := "fusion.storage.openshift.io/migration-timestamp"
  const TIMESTAMP := "timestamp"

  /** Which calls of a run fail, object by object.  A crash is the case in which every call
      after it fails.  `now` is the time stamped on new conditions. */
  datatype Mishaps = Mishaps(
    claimGets: set<string>,
    claimCreates: set<string>,
    statusUpdates: set<string>,
    diskUpdates: set<string>,
    filesystemGets: set<string>,
    filesystemUpdates: set<string>,
    classGets: set<string>,
    classUpdates: set<string>,
    now: int)

  function Calm(now: int): Mishaps {
    Mishaps({}, {}, {}, {}, {}, {}, {}, {}, now)
  }

  // ---- candidates ----

  predicate WwnLike(name: string) {
    "uuid." <= name || "eui." <= name || "0x" <= name
  }

  predicate HasLabel(labels: Labels, l: Label, value: string) {
    l in labels && labels[l] == value
  }

  predicate IsLegacy(d: LocalDisk) {
    && !HasLabel(d.labels, Migrated, TRUE_VALUE)
    && !HasLabel(d.labels, SkipMigration, TRUE_VALUE)
    && d.owners == []
    && WwnLike(d.name)
    && d.filesystem != "" && d.device != "" && d.node != ""
  }

  function LegacyDisks(disks: seq<LocalDisk>): (r: seq<LocalDisk>)
    ensures forall d :: d in r <==> d in disks && IsLegacy(d)
  {
    if disks == [] then []
    else if IsLegacy(disks[0]) then [disks[0]] + LegacyDisks(disks[1..])
    else LegacyDisks(disks[1..])
  }

  // The legacy disks of one filesystem, in list order.
  function GroupDisks(disks: seq<LocalDisk>, g: string): (r: seq<LocalDisk>)
    ensures forall d :: d in r <==> d in disks && IsLegacy(d) && d.filesystem == g
  {
    if disks == [] then []
    else if IsLegacy(disks[0]) && disks[0].filesystem == g then [disks[0]] + GroupDisks(disks[1..], g)
    else GroupDisks(disks[1..], g)
  }

  function Keys(disks: seq<LocalDisk>): set<string> {
    set d | d in disks && IsLegacy(d) :: d.filesystem
  }

  function Devices(disks: seq<LocalDisk>): (r: seq<string>)
    ensures |r| == |disks| && forall i :: 0 <= i < |r| ==> r[i] == disks[i].device
  {
    seq(|disks|, i requires 0 <= i < |disks| => disks[i].device)
  }

  // ---- what happens to each object ----

  function MigrationLabels(): Labels {
    map[Migrated := TRUE_VALUE, MigrationSource := MIGRATION_SOURCE]
  }

  function Upserted(owners: seq<OwnerRef>, g: string): seq<OwnerRef> {
    if OwnedBy(owners, g) then owners else owners + [ClaimRef(g)]
  }

  // An owner reference of the claim kind and name, whatever its API version.
  predicate HasClaimOwner(owners: seq<OwnerRef>, g: string) {
    exists o :: o in owners && o.kind == FileSystemClaimKind && o.name == g
  }

  function AdoptDisk(d: LocalDisk, g: string): LocalDisk {
    d.(owners := Upserted(d.owners, g), labels := d.labels + OwnershipLabels(g) + MigrationLabels())
  }

  function AdoptFilesystem(f: Filesystem, g: string): Filesystem {
    f.(owners := Upserted(f.owners, g), labels := f.labels + OwnershipLabels(g) + MigrationLabels())
  }

  function AdoptClass(sc: StorageClass, g: string): StorageClass {
    sc.(labels := sc.labels + OwnershipLabels(g) + MigrationLabels(),
        annotations := sc.annotations[TIMESTAMP_ANNOTATION := TIMESTAMP])
  }

  function MigratedConditions(disks: nat, hasClass: bool, now: int): seq<Condition> {
    [Condition(DeviceValidated, True, MigrationComplete, DevicesMigrated, now),
     Condition(LocalDiskCreated, True, MigrationComplete, DisksMigrated(disks), now),
     Condition(FileSystemCreated, True, MigrationComplete, FilesystemMigrated, now)]
    + (if hasClass then [Condition(StorageClassCreated, True, MigrationComplete, ClassMigrated, now)] else [])
    + [Condition(Ready, True, MigrationComplete, AllMigrated, now)]
  }

  function NewClaim(w: World, g: string, m: Mishaps): Claim {
    var disks := GroupDisks(w.disks, g);
    Claim(g, Devices(disks), false, false,
      if g in m.statusUpdates then [] else MigratedConditions(|disks|, g in w.classes, m.now),
      MigrationLabels())
  }

  // ---- how far each group gets ----

  predicate Valid(w: World, g: string, m: Mishaps) {
    && g !in m.filesystemGets && HasFilesystem(w.filesystems, g)
    && g !in m.classGets && (g in w.classes ==> w.classes[g].provisioner == PROVISIONER)
  }

  predicate Claimed(w: World, g: string, m: Mishaps) {
    Valid(w, g, m) && g !in m.claimGets && (g in w.claims || g !in m.claimCreates)
  }

  // The disks that are updated before the first update that fails.
  function Reached(disks: seq<LocalDisk>, m: Mishaps): (r: seq<LocalDisk>)
    ensures r <= disks
  {
    if disks == [] || disks[0].name in m.diskUpdates then []
    else [disks[0]] + Reached(disks[1..], m)
  }

  predicate DisksDone(w: World, g: string, m: Mishaps) {
    Claimed(w, g, m) && Reached(GroupDisks(w.disks, g), m) == GroupDisks(w.disks, g)
  }

  predicate FilesystemOwned(w: World, g: string) {
    exists f :: f in w.filesystems && f.name == g && HasClaimOwner(f.owners, g)
  }

  predicate FilesystemDone(w: World, g: string, m: Mishaps) {
    DisksDone(w, g, m) && (FilesystemOwned(w, g) || g !in m.filesystemUpdates)
  }

  predicate ClassLabelled(w: World, g: string) {
    g in w.classes ==> HasLabel(w.classes[g].labels, Migrated, TRUE_VALUE)
  }

  // The group migrates without an error.
  predicate Succeeds(w: World, g: string, m: Mishaps) {
    FilesystemDone(w, g, m) && (ClassLabelled(w, g) || g !in m.classUpdates)
  }

  // ---- the whole run ----

  predicate AdoptsDisk(w: World, done: set<string>, m: Mishaps, d: LocalDisk) {
    IsLegacy(d) && d.filesystem in done && Claimed(w, d.filesystem, m)
    && d in Reached(GroupDisks(w.disks, d.filesystem), m)
  }

  predicate AdoptsFilesystem(w: World, done: set<string>, m: Mishaps, f: Filesystem) {
    f.name in done && FilesystemDone(w, f.name, m) && !HasClaimOwner(f.owners, f.name)
  }

  // After the groups in `done` have been processed, in whatever order.
  function MigratedDisks(w: World, done: set<string>, m: Mishaps): (r: seq<LocalDisk>)
    ensures |r| == |w.disks|
    ensures forall i :: 0 <= i < |r| ==>
      r[i] == if AdoptsDisk(w, done, m, w.disks[i]) then AdoptDisk(w.disks[i], w.disks[i].filesystem) else w.disks[i]
  {
    seq(|w.disks|, i requires 0 <= i < |w.disks| =>
      if AdoptsDisk(w, done, m, w.disks[i]) then AdoptDisk(w.disks[i], w.disks[i].filesystem) else w.disks[i])
  }

  function MigratedFilesystems(w: World, done: set<string>, m: Mishaps): (r: seq<Filesystem>)
    ensures |r| == |w.filesystems|
    ensures forall i :: 0 <= i < |r| ==>
      r[i] == if AdoptsFilesystem(w, done, m, w.filesystems[i])
              then AdoptFilesystem(w.filesystems[i], w.filesystems[i].name) else w.filesystems[i]
  {
    seq(|w.filesystems|, i requires 0 <= i < |w.filesystems| =>
      if AdoptsFilesystem(w, done, m, w.filesystems[i])
      then AdoptFilesystem(w.filesystems[i], w.filesystems[i].name) else w.filesystems[i])
  }

  predicate AdoptsClass(w: World, m: Mishaps, g: string) {
    g in w.classes && Succeeds(w, g, m) && !ClassLabelled(w, g)
  }

  function MigratedClasses(w: World, done: set<string>, m: Mishaps): map<string, StorageClass> {
    map g | g in w.classes :: if g in done && AdoptsClass(w, m, g) then AdoptClass(w.classes[g], g) else w.classes[g]
  }

  function MigratedClaims(w: World, done: set<string>, m: Mishaps): map<string, Claim> {
    w.claims + map g | g in done && g !in w.claims && Claimed(w, g, m) :: NewClaim(w, g, m)
  }

  function MigratedWorld(w: World, done: set<string>, m: Mishaps): World {
    w.(claims := MigratedClaims(w, done, m),
       disks := MigratedDisks(w, done, m),
       filesystems := MigratedFilesystems(w, done, m),
       classes := MigratedClasses(w, done, m))
  }

  function Migrate(w: World, m: Mishaps): World {
    MigratedWorld(w, Keys(w.disks), m)
  }
}
