/** The objects the operator reads and writes, as values, and the API calls the controller
    makes on them.  Every call may fail: `State.faults` says, call by call, which ones do.
    `State.log` is the trace of the writes, each with the world it was made in. */
module Cluster {
  import opened Conditions

  datatype OwnerKind = FileSystemClaimKind | OtherKind(name: string)
  datatype OwnerApi = FusionV1Alpha1 | OtherApi(name: string)
  datatype OwnerRef = OwnerRef(api: OwnerApi, kind: OwnerKind, name: string)

  datatype Label =
    | OwnedByName
    | OwnedByNamespace
    | Migrated
    | MigrationSource
    | SkipMigration
    | AllowDelete
    | OtherLabel(name: string)

  type Labels = map<Label, string>

  const NAMESPACE := "ibm-spectrum-scale"
  const TRUE_VALUE := "true"

  /** `finalizer` is the controller's own finalizer, the only one a claim carries. */
  datatype Claim = Claim(
    name: string,
    devices: seq<string>,
    finalizer: bool,
    deleting: bool,
    conditions: seq<Condition>,
    labels: Labels)

  /** `conditions` is None when the status has no condition list; `filesystem` is "" when unset. */
  datatype LocalDisk = LocalDisk(
    name: string,
    device: string,
    node: string,
    owners: seq<OwnerRef>,
    labels: Labels,
    conditions: Option<seq<Condition>>,
    filesystem: string,
    terminating: bool)

  datatype Pool = Pool(name: string, disks: seq<string>)

  datatype SELinuxOptions = SELinuxOptions(level: string, role: string, kind: string, user: string)

  datatype FilesystemSpec = FilesystemSpec(
    blockSize: string,
    pools: seq<Pool>,
    replication: string,
    kind: string,
    seLinux: SELinuxOptions)

  datatype Filesystem = Filesystem(
    name: string,
    spec: FilesystemSpec,
    owners: seq<OwnerRef>,
    labels: Labels,
    conditions: Option<seq<Condition>>,
    terminating: bool)

  datatype ReclaimPolicy = Delete | Retain | Recycle
  datatype BindingMode = Immediate | WaitForFirstConsumer

  /** The fields of a StorageClass that drift detection compares. */
  datatype StorageClass = StorageClass(
    annotations: map<string, string>,
    labels: Labels,
    provisioner: string,
    allowVolumeExpansion: Option<bool>,
    reclaimPolicy: Option<ReclaimPolicy>,
    bindingMode: Option<BindingMode>,
    parameters: map<string, string>)

  datatype PersistentVolume = PersistentVolume(name: string, storageClass: string, phase: VolumePhase, deleting: bool)

  datatype Node = Node(name: string, worker: bool, storage: bool)

  datatype DiscoveredDevice = DiscoveredDevice(path: string, wwn: string)

  /** Disks and filesystems are sequences: the order is the order in which they are listed. */
  datatype World = World(
    claims: map<string, Claim>,
    disks: seq<LocalDisk>,
    filesystems: seq<Filesystem>,
    classes: map<string, StorageClass>,
    volumes: seq<PersistentVolume>,
    nodes: seq<Node>,
    discovery: map<string, seq<DiscoveredDevice>>)

  datatype Action =
    | AddedFinalizer(claim: string)
    | RemovedFinalizer(claim: string)
    | WroteStatus(claim: string, news: seq<Condition>)
    | CreatedDisk(claim: string, disk: LocalDisk)
    | CreatedFilesystem(claim: string, filesystem: Filesystem)
    | PatchedFilesystem(claim: string, name: string, spec: FilesystemSpec)
    | CreatedClass(claim: string, storageClass: StorageClass)
    | PatchedClass(claim: string, storageClass: StorageClass)
    | DeletedClass(claim: string)
    | DeletedFilesystem(claim: string, filesystem: Filesystem)
    | DeletedDisk(claim: string, disk: LocalDisk)

  datatype Entry = Entry(before: World, action: Action)

  /** `pick` is the random node choice, `now` the clock in nanoseconds. */
  datatype State = State(world: World, faults: seq<bool>, log: seq<Entry>, pick: nat, now: int)

  /** The state after an API call and whether the call succeeded. */
  datatype Call = Call(s: State, ok: bool)

  // ---- ownership ----

  function ClaimRef(name: string): OwnerRef {
    OwnerRef(FusionV1Alpha1, FileSystemClaimKind, name)
  }

  predicate OwnedBy(owners: seq<OwnerRef>, claim: string) {
    ClaimRef(claim) in owners
  }

  function OwnershipLabels(claim: string): Labels {
    map[OwnedByName := claim, OwnedByNamespace := NAMESPACE]
  }

  function OwnedDisks(disks: seq<LocalDisk>, claim: string): (r: seq<LocalDisk>)
    ensures forall d :: d in r <==> d in disks && OwnedBy(d.owners, claim)
  {
    if disks == [] then []
    else if OwnedBy(disks[0].owners, claim) then [disks[0]] + OwnedDisks(disks[1..], claim)
    else OwnedDisks(disks[1..], claim)
  }

  function OwnedFilesystems(filesystems: seq<Filesystem>, claim: string): (r: seq<Filesystem>)
    ensures forall f :: f in r <==> f in filesystems && OwnedBy(f.owners, claim)
  {
    if filesystems == [] then []
    else if OwnedBy(filesystems[0].owners, claim) then [filesystems[0]] + OwnedFilesystems(filesystems[1..], claim)
    else OwnedFilesystems(filesystems[1..], claim)
  }

  // The non-empty device paths of a list of disks, as a set.
  function DeviceSet(disks: seq<LocalDisk>): set<string> {
    set d | d in disks && d.device != "" :: d.device
  }

  function ToSet(devices: seq<string>): set<string> {
    set d | d in devices
  }

  function DiskNames(disks: seq<LocalDisk>): (r: seq<string>)
    ensures |r| == |disks| && forall i :: 0 <= i < |r| ==> r[i] == disks[i].name
  {
    seq(|disks|, i requires 0 <= i < |disks| => disks[i].name)
  }

  predicate HasDisk(disks: seq<LocalDisk>, name: string) {
    exists d :: d in disks && d.name == name
  }

  predicate HasFilesystem(filesystems: seq<Filesystem>, name: string) {
    exists f :: f in filesystems && f.name == name
  }

  // ---- API calls ----

  predicate Fails(s: State) {
    s.faults != [] && s.faults[0]
  }

  function Next(s: State): State {
    if s.faults == [] then s else s.(faults := s.faults[1..])
  }

  function Logged(s: State, a: Action): State {
    s.(log := s.log + [Entry(s.world, a)])
  }

  // Merge-patch the status of the stored claim: the news are applied to the stored conditions.
  function PatchStatus(s: State, claim: string, news: seq<Condition>): Call {
    if Fails(s) || claim !in s.world.claims then Call(Next(s), false)
    else
      var c := s.world.claims[claim];
      var c' := c.(conditions := UpdatedAll(c.conditions, news));
      Call(Logged(Next(s), WroteStatus(claim, news)).(world := s.world.(claims := s.world.claims[claim := c'])), true)
  }

  function AddFinalizer(s: State, claim: string): Call {
    if Fails(s) || claim !in s.world.claims then Call(Next(s), false)
    else
      var c' := s.world.claims[claim].(finalizer := true);
      Call(Logged(Next(s), AddedFinalizer(claim)).(world := s.world.(claims := s.world.claims[claim := c'])), true)
  }

  // Removing the last finalizer of an object that is being deleted makes the object vanish.
  function RemoveFinalizer(s: State, claim: string): Call {
    if Fails(s) || claim !in s.world.claims then Call(Next(s), false)
    else
      var c := s.world.claims[claim];
      var claims' := if c.deleting then s.world.claims - {claim} else s.world.claims[claim := c.(finalizer := false)];
      Call(Logged(Next(s), RemovedFinalizer(claim)).(world := s.world.(claims := claims')), true)
  }

  // A create fails when an object of that name exists.
  function CreateDisk(s: State, claim: string, d: LocalDisk): Call {
    if Fails(s) || HasDisk(s.world.disks, d.name) then Call(Next(s), false)
    else Call(Logged(Next(s), CreatedDisk(claim, d)).(world := s.world.(disks := s.world.disks + [d])), true)
  }

  function CreateFilesystem(s: State, claim: string, f: Filesystem): Call {
    if Fails(s) || HasFilesystem(s.world.filesystems, f.name) then Call(Next(s), false)
    else Call(Logged(Next(s), CreatedFilesystem(claim, f)).(world := s.world.(filesystems := s.world.filesystems + [f])), true)
  }

  function WithSpec(filesystems: seq<Filesystem>, name: string, spec: FilesystemSpec): (r: seq<Filesystem>)
    ensures |r| == |filesystems|
    ensures forall i :: 0 <= i < |r| ==>
      r[i] == if filesystems[i].name == name then filesystems[i].(spec := spec) else filesystems[i]
  {
    seq(|filesystems|, i requires 0 <= i < |filesystems| =>
      if filesystems[i].name == name then filesystems[i].(spec := spec) else filesystems[i])
  }

  function PatchFilesystem(s: State, claim: string, name: string, spec: FilesystemSpec): Call {
    if Fails(s) then Call(Next(s), false)
    else Call(Logged(Next(s), PatchedFilesystem(claim, name, spec))
                .(world := s.world.(filesystems := WithSpec(s.world.filesystems, name, spec))), true)
  }

  function CreateClass(s: State, claim: string, sc: StorageClass): Call {
    if Fails(s) || claim in s.world.classes then Call(Next(s), false)
    else Call(Logged(Next(s), CreatedClass(claim, sc)).(world := s.world.(classes := s.world.classes[claim := sc])), true)
  }

  function PatchClass(s: State, claim: string, sc: StorageClass): Call {
    if Fails(s) then Call(Next(s), false)
    else Call(Logged(Next(s), PatchedClass(claim, sc)).(world := s.world.(classes := s.world.classes[claim := sc])), true)
  }

  // A StorageClass has no finalizers: deleting it removes it.
  function DeleteClass(s: State, claim: string): Call {
    if Fails(s) then Call(Next(s), false)
    else Call(Logged(Next(s), DeletedClass(claim)).(world := s.world.(classes := s.world.classes - {claim})), true)
  }

  // Disks and filesystems only start terminating: their own controllers remove them later.
  function Terminated(filesystems: seq<Filesystem>, name: string): (r: seq<Filesystem>)
    ensures |r| == |filesystems|
    ensures forall i :: 0 <= i < |r| ==>
      r[i] == if filesystems[i].name == name then filesystems[i].(terminating := true) else filesystems[i]
  {
    seq(|filesystems|, i requires 0 <= i < |filesystems| =>
      if filesystems[i].name == name then filesystems[i].(terminating := true) else filesystems[i])
  }

  function DeleteFilesystem(s: State, claim: string, f: Filesystem): Call {
    if Fails(s) then Call(Next(s), false)
    else Call(Logged(Next(s), DeletedFilesystem(claim, f))
                .(world := s.world.(filesystems := Terminated(s.world.filesystems, f.name))), true)
  }

  function TerminatedDisk(disks: seq<LocalDisk>, name: string): (r: seq<LocalDisk>)
    ensures |r| == |disks|
    ensures forall i :: 0 <= i < |r| ==> r[i] == if disks[i].name == name then disks[i].(terminating := true) else disks[i]
  {
    seq(|disks|, i requires 0 <= i < |disks| => if disks[i].name == name then disks[i].(terminating := true) else disks[i])
  }

  function DeleteDisk(s: State, claim: string, d: LocalDisk): Call {
    if Fails(s) then Call(Next(s), false)
    else Call(Logged(Next(s), DeletedDisk(claim, d)).(world := s.world.(disks := TerminatedDisk(s.world.disks, d.name))), true)
  }

  // ---- well-formed worlds ----

  predicate DistinctDiskNames(disks: seq<LocalDisk>) {
    forall i, j :: 0 <= i < j < |disks| ==> disks[i].name != disks[j].name
  }

  predicate DistinctFilesystemNames(filesystems: seq<Filesystem>) {
    forall i, j :: 0 <= i < j < |filesystems| ==> filesystems[i].name != filesystems[j].name
  }

  predicate UniqueConditions(w: World) {
    forall n :: n in w.claims ==> Unique(w.claims[n].conditions)
  }

  predicate WellNamed(w: World) {
    forall n :: n in w.claims ==> w.claims[n].name == n
  }

  // What the API server guarantees, and the one-condition-per-type invariant.
  predicate WellFormed(w: World) {
    && WellNamed(w)
    && UniqueConditions(w)
    && DistinctDiskNames(w.disks)
    && DistinctFilesystemNames(w.filesystems)
  }
}
