/** What each stage of the FileSystemClaim reconciler computes, as functions from the state
    before to the state after.  The claim `c` is the snapshot fetched at the start of the
    reconcile; patches go to the stored claim. */
module ReconcilerSpec {
  import opened Conditions
  import opened Cluster
  import Backoff

  /** How a stage ends: go on to the next stage, stop and requeue, stop and requeue after a
      given delay, or stop with an error. */
  datatype Outcome = Continue | Requeue | Delayed(after: int) | Failed

  datatype Step = Step(s: State, out: Outcome)

  // ---- status helpers ----

  // Whether a condition is already as wanted, or was left True by the migration and is wanted True.
  predicate Settled(c: Claim, kind: ConditionType, status: Status, reason: Reason, message: Message) {
    var prev := Find(c.conditions, kind);
    prev.Some? && ((prev.value.status == status && prev.value.reason == reason && prev.value.message == message)
                   || (prev.value.reason == MigrationComplete && status == True))
  }

  function PatchOutcome(p: Call): Step {
    Step(p.s, if p.ok then Requeue else Failed)
  }

  function UpdateIfChanged(s: State, c: Claim, kind: ConditionType, status: Status, reason: Reason, message: Message): Step {
    if Settled(c, kind, status, reason, message) then Step(s, Continue)
    else PatchOutcome(PatchStatus(s, c.name, [Condition(kind, status, reason, message, s.now)]))
  }

  function CreationError(s: State, c: Claim, kind: ConditionType, reason: Reason, cause: Cause): Step {
    PatchOutcome(PatchStatus(s, c.name, [
      Condition(kind, False, reason, CreationRejected(cause), s.now),
      Condition(Ready, False, ProvisioningFailed, CreationFailed, s.now)]))
  }

  function DiskError(s: State, c: Claim, cause: Cause): Step {
    CreationError(s, c, LocalDiskCreated, LocalDiskCreationFailed, cause)
  }

  // ---- finalizer ----

  function HandleFinalizers(s: State, c: Claim): Step {
    if c.deleting || c.finalizer then Step(s, Continue)
    else PatchOutcome(AddFinalizer(s, c.name))
  }

  // ---- local disks ----

  function StorageNodes(nodes: seq<Node>): (r: seq<string>)
    ensures forall n :: n in r <==> exists x :: x in nodes && x.worker && x.storage && x.name == n
  {
    if nodes == [] then []
    else if nodes[0].worker && nodes[0].storage then
      var r := [nodes[0].name] + StorageNodes(nodes[1..]);
      assert nodes == [nodes[0]] + nodes[1..];
      r
    else
      assert nodes == [nodes[0]] + nodes[1..];
      StorageNodes(nodes[1..])
  }

  function Picked(nodes: seq<string>, pick: nat): string
    requires nodes != []
  {
    if pick < |nodes| then nodes[pick] else nodes[0]
  }

  predicate Discovered(w: World, node: string, device: string) {
    node in w.discovery && exists d :: d in w.discovery[node] && d.path == device
  }

  // Every device is discovered on every storage node, and there is a storage node.
  predicate AllDiscovered(w: World, devices: seq<string>) {
    && StorageNodes(w.nodes) != []
    && (forall n :: n in StorageNodes(w.nodes) ==> n in w.discovery)
    && (forall d, n :: d in devices && n in StorageNodes(w.nodes) ==> Discovered(w, n, d))
  }

  // The number of API reads of the validation when none fails: the node list, then one result
  // per storage node up to the first that is missing.
  function FetchResults(s: State, nodes: seq<string>): (r: Call)
    ensures r.s == s.(faults := r.s.faults)
    decreases |nodes|
  {
    if nodes == [] then Call(s, true)
    else if Fails(s) || nodes[0] !in s.world.discovery then Call(Next(s), false)
    else FetchResults(Next(s), nodes[1..])
  }

  function Validate(s: State, c: Claim): Call {
    if Fails(s) then Call(Next(s), false)
    else
      var nodes := StorageNodes(s.world.nodes);
      var f := FetchResults(Next(s), nodes);
      if !f.ok then f else Call(f.s, AllDiscovered(s.world, c.devices))
  }

  function FirstWwn(found: seq<DiscoveredDevice>, device: string): Option<string> {
    if found == [] then None
    else if found[0].path == device then (if found[0].wwn == "" then None else Some(found[0].wwn))
    else FirstWwn(found[1..], device)
  }

  function DeviceWwn(w: World, node: string, device: string): Option<string> {
    if node !in w.discovery then None else FirstWwn(w.discovery[node], device)
  }

  const MAX_NAME_LENGTH := 253

  predicate IsAlphanumeric(ch: char) {
    'a' <= ch <= 'z' || 'A' <= ch <= 'Z' || '0' <= ch <= '9'
  }

  predicate ValidName(name: string) {
    && 0 < |name| <= MAX_NAME_LENGTH
    && IsAlphanumeric(name[0]) && IsAlphanumeric(name[|name| - 1])
    && (forall i :: 0 <= i < |name| ==> IsAlphanumeric(name[i]) || name[i] == '-' || name[i] == '.')
  }

  function NewDisk(claim: string, wwn: string, device: string, node: string): LocalDisk {
    LocalDisk(wwn, device, node, [ClaimRef(claim)], OwnershipLabels(claim), None, "", false)
  }

  // The creation loop from device `i` on; `created` tells whether a disk was created so far.
  function CreateDisks(s: State, c: Claim, node: string, i: nat, created: bool): Step
    requires i <= |c.devices|
    decreases |c.devices| - i
  {
    if i == |c.devices| then Step(s, if created then Requeue else Continue)
    else
      var wwn := DeviceWwn(s.world, node, c.devices[i]);
      if Fails(s) || wwn.None? then DiskError(Next(s), c, NoWwn(c.devices[i]))
      else if !ValidName(wwn.value) then DiskError(Next(s), c, BadName(wwn.value))
      else if Fails(Next(s)) then Step(Next(Next(s)), Failed)
      else if HasDisk(s.world.disks, wwn.value) then Step(Next(Next(s)), Continue)
      else
        var made := CreateDisk(Next(Next(s)), c.name, NewDisk(c.name, wwn.value, c.devices[i], node));
        if !made.ok then DiskError(made.s, c, CreateRejected(wwn.value))
        else
          var noted := UpdateIfChanged(made.s, c, LocalDiskCreated, False, LocalDiskCreationInProgress, DisksCreated);
          if noted.out == Failed then noted
          else CreateDisks(noted.s, c, node, i + 1, true)
  }

  // LocalDiskCreated is True: only check that the devices are still those of the owned disks.
  function CheckDevices(s: State, c: Claim): Step {
    if Fails(s) then Step(Next(s), Failed)
    else
      var owned := DeviceSet(OwnedDisks(s.world.disks, c.name));
      if owned == ToSet(c.devices) then Step(Next(s), Continue)
      else PatchOutcome(PatchStatus(Next(s), c.name,
             [Condition(Ready, False, ImmutableFieldModified, DevicesModified(owned, c.devices), s.now)]))
  }

  function ValidateStage(s: State, c: Claim): Step {
    var v := Validate(s, c);
    if !v.ok then
      PatchOutcome(PatchStatus(v.s, c.name, [
        Condition(Ready, False, ValidationFailed, DevicesInvalid, s.now),
        Condition(DeviceValidated, False, DeviceValidationFailed, DevicesInvalid, s.now)]))
    else
      var u := UpdateIfChanged(v.s, c, DeviceValidated, True, DeviceValidationSucceeded, DevicesValid);
      Step(u.s, if u.out == Failed then Failed else Requeue)
  }

  function CreateStage(s: State, c: Claim): Step {
    if Fails(s) then DiskError(Next(s), c, NoStorageNode)
    else
      var nodes := StorageNodes(s.world.nodes);
      if nodes == [] then DiskError(Next(s), c, NoStorageNode)
      else CreateDisks(Next(s), c, Picked(nodes, s.pick), 0, false)
  }

  function EnsureLocalDisks(s: State, c: Claim): Step {
    if IsTrue(c.conditions, LocalDiskCreated) then CheckDevices(s, c)
    else if HasReason(c.conditions, LocalDiskCreated, LocalDiskCreationInProgress) then Step(s, Continue)
    else if !IsTrue(c.conditions, DeviceValidated) then ValidateStage(s, c)
    else CreateStage(s, c)
  }

  // ---- health ----

  datatype Health = Good | Bad(resource: string, problem: Problem, hard: bool)

  function CheckCondition(conditions: seq<Condition>, kind: ConditionType): Option<Problem> {
    var f := Find(conditions, kind);
    if f.None? then Some(Missing(kind))
    else if f.value.status != True then Some(Reported(f.value.message))
    else None
  }

  function DiskHealth(d: LocalDisk, own: set<string>): Health {
    if d.conditions.None? then Bad(d.name, NoConditions, false)
    else
      var ready := CheckCondition(d.conditions.value, Ready);
      if ready.Some? then Bad(d.name, ready.value, false)
      else
        var used := Find(d.conditions.value, Used);
        if used.None? then Bad(d.name, Missing(Used), false)
        else if used.value.status != True then Good
        else if d.filesystem == "" then Bad(d.name, UsedByNobody, true)
        else if d.filesystem !in own then Bad(d.name, UsedByForeign(d.filesystem), true)
        else Good
  }

  function FilesystemHealth(f: Filesystem): Health {
    if f.conditions.None? then Bad(f.name, NoConditions, false)
    else
      var success := CheckCondition(f.conditions.value, Success);
      if success.Some? then Bad(f.name, success.value, false)
      else
        var healthy := CheckCondition(f.conditions.value, Healthy);
        if healthy.Some? then Bad(f.name, healthy.value, false) else Good
  }

  // The first failing resource decides.
  function DisksHealth(disks: seq<LocalDisk>, own: set<string>): (r: Health)
    ensures r == Good <==> forall d :: d in disks ==> DiskHealth(d, own) == Good
  {
    if disks == [] then Good
    else
      var h := DiskHealth(disks[0], own);
      assert disks == [disks[0]] + disks[1..];
      if h != Good then h else DisksHealth(disks[1..], own)
  }

  function FilesystemsHealth(filesystems: seq<Filesystem>): (r: Health)
    ensures r == Good <==> forall f :: f in filesystems ==> FilesystemHealth(f) == Good
  {
    if filesystems == [] then Good
    else
      var h := FilesystemHealth(filesystems[0]);
      assert filesystems == [filesystems[0]] + filesystems[1..];
      if h != Good then h else FilesystemsHealth(filesystems[1..])
  }

  function FilesystemNames(filesystems: seq<Filesystem>): set<string> {
    set f | f in filesystems :: f.name
  }

  function DisksVerdict(s: State, c: Claim, owned: seq<LocalDisk>, own: set<string>): Step {
    match DisksHealth(owned, own)
    case Good =>
      UpdateIfChanged(s, c, LocalDiskCreated, True, LocalDiskCreationSucceeded, AllDisksReady(|owned|))
    case Bad(resource, problem, hard) =>
      UpdateIfChanged(s, c, LocalDiskCreated, False,
        if hard then LocalDiskCreationFailed else LocalDiskCreationInProgress, ResourceProblem(resource, problem))
  }

  // A failing filesystem list is tolerated: only the claim's own name then counts as its filesystem.
  function SyncLocalDisks(s: State, c: Claim): Step {
    if Fails(s) then Step(Next(s), Failed)
    else
      var owned := OwnedDisks(s.world.disks, c.name);
      if owned == [] then
        if IsTrue(c.conditions, DeviceValidated)
        then UpdateIfChanged(Next(s), c, LocalDiskCreated, False, LocalDiskCreationInProgress, WaitingForDisks)
        else Step(Next(s), Continue)
      else
        var listed := if Fails(Next(s)) then {} else FilesystemNames(OwnedFilesystems(s.world.filesystems, c.name));
        DisksVerdict(Next(Next(s)), c, owned, {c.name} + listed)
  }

  // ---- filesystem ----

  function BuildSpec(disks: seq<string>): FilesystemSpec {
    FilesystemSpec("4M", [Pool("system", disks)], "1-way", "shared",
      SELinuxOptions("s0", "object_r", "container_file_t", "system_u"))
  }

  function NewFilesystem(claim: string, spec: FilesystemSpec): Filesystem {
    Filesystem(claim, spec, [ClaimRef(claim)], OwnershipLabels(claim), None, false)
  }

  function MakeFilesystem(s: State, c: Claim, spec: FilesystemSpec): Step {
    var made := CreateFilesystem(s, c.name, NewFilesystem(c.name, spec));
    if !made.ok then CreationError(made.s, c, FileSystemCreated, FileSystemCreationFailed, CreateRejected(c.name))
    else
      var u := UpdateIfChanged(made.s, c, FileSystemCreated, False, FileSystemCreationInProgress, FilesystemCreated);
      Step(u.s, if u.out == Failed then Failed else Requeue)
  }

  function EnsureFilesystem(s: State, c: Claim): Step {
    if !IsTrue(c.conditions, LocalDiskCreated) then Step(s, Continue)
    else if Fails(s) then Step(Next(s), Failed)
    else
      var names := DiskNames(OwnedDisks(s.world.disks, c.name));
      if names == [] then Step(Next(s), Continue)
      else if Fails(Next(s)) then Step(Next(Next(s)), Failed)
      else
        var s2 := Next(Next(s));
        var owned := OwnedFilesystems(s.world.filesystems, c.name);
        if |owned| == 0 then MakeFilesystem(s2, c, BuildSpec(names))
        else if |owned| == 1 then
          if owned[0].spec == BuildSpec(names) then Step(s2, Continue)
          else PatchOutcome(PatchFilesystem(s2, c.name, owned[0].name, BuildSpec(names)))
        else CreationError(s2, c, FileSystemCreated, FileSystemCreationFailed, TooMany(|owned|))
  }

  function SyncFilesystem(s: State, c: Claim): Step {
    if !IsTrue(c.conditions, LocalDiskCreated) then Step(s, Continue)
    else if Fails(s) then Step(Next(s), Failed)
    else
      var owned := OwnedFilesystems(s.world.filesystems, c.name);
      if owned == [] then
        UpdateIfChanged(Next(s), c, FileSystemCreated, False, FileSystemCreationInProgress, WaitingForFilesystem)
      else
        match FilesystemsHealth(owned)
        case Good =>
          UpdateIfChanged(Next(s), c, FileSystemCreated, True, FileSystemCreationSucceeded, FilesystemHealthy)
        case Bad(resource, problem, _) =>
          UpdateIfChanged(Next(s), c, FileSystemCreated, False, FileSystemCreationInProgress,
            ResourceProblem(resource, problem))
  }

  // ---- storage class ----

  const DEFAULT_ANNOTATION := "storageclass.kubevirt.io/is-default-virt-class"
  const PROVISIONER := "spectrumscale.csi.ibm.com"
  const BACKEND_PARAMETER := "volBackendFs"

  function BuildClass(claim: string): StorageClass {
    StorageClass(map[DEFAULT_ANNOTATION := TRUE_VALUE], OwnershipLabels(claim), PROVISIONER,
      Some(true), Some(Delete), Some(Immediate), map[BACKEND_PARAMETER := claim])
  }

  function MakeClass(s: State, c: Claim): Step {
    var made := CreateClass(s, c.name, BuildClass(c.name));
    if !made.ok then CreationError(made.s, c, StorageClassCreated, StorageClassCreationFailed, CreateRejected(c.name))
    else UpdateIfChanged(made.s, c, StorageClassCreated, True, StorageClassCreationSucceeded, ClassCreated)
  }

  function KeepClass(s: State, c: Claim): Step
    requires c.name in s.world.classes
  {
    var drifted := s.world.classes[c.name] != BuildClass(c.name);
    var p := if drifted then PatchClass(s, c.name, BuildClass(c.name)) else Call(s, true);
    if !p.ok then Step(p.s, Failed)
    else
      var u := UpdateIfChanged(p.s, c, StorageClassCreated, True, StorageClassCreationSucceeded, ClassPresent);
      Step(u.s, if u.out == Failed then Failed else if drifted then Requeue else u.out)
  }

  function EnsureClass(s: State, c: Claim): Step {
    if !IsTrue(c.conditions, FileSystemCreated) then Step(s, Continue)
    else if Fails(s) then Step(Next(s), Failed)
    else if c.name !in s.world.classes then MakeClass(Next(s), c)
    else KeepClass(Next(s), c)
  }

  // ---- aggregate ----

  predicate AllTrue(conditions: seq<Condition>) {
    && IsTrue(conditions, DeviceValidated)
    && IsTrue(conditions, LocalDiskCreated)
    && IsTrue(conditions, FileSystemCreated)
    && IsTrue(conditions, StorageClassCreated)
  }

  function SyncReady(s: State, c: Claim): Step {
    if AllTrue(c.conditions)
    then UpdateIfChanged(s, c, Ready, True, ProvisioningSucceeded, AllProvisioned)
    else UpdateIfChanged(s, c, Ready, False, ProvisioningInProgress, StillProvisioning)
  }

  // ---- deletion ----

  predicate Blocks(v: PersistentVolume, claim: string) {
    v.storageClass == claim && !v.deleting && (v.phase == Bound || v.phase == Released)
  }

  function Blockers(volumes: seq<PersistentVolume>, claim: string): (r: seq<(string, VolumePhase)>)
    ensures r != [] <==> exists v :: v in volumes && Blocks(v, claim)
  {
    if volumes == [] then []
    else
      assert volumes == [volumes[0]] + volumes[1..];
      if Blocks(volumes[0], claim) then [(volumes[0].name, volumes[0].phase)] + Blockers(volumes[1..], claim)
      else Blockers(volumes[1..], claim)
  }

  const MAX_SHOWN := 5

  function InUseMessage(blockers: seq<(string, VolumePhase)>): Message {
    if |blockers| > MAX_SHOWN then VolumesInUse(blockers[..MAX_SHOWN], |blockers| - MAX_SHOWN)
    else VolumesInUse(blockers, 0)
  }

  function MarkDeletion(s: State, c: Claim): Step {
    if HasReason(c.conditions, Ready, DeletionRequested) then Step(s, Continue)
    else UpdateIfChanged(s, c, Ready, False, DeletionRequested, DeletionNotice)
  }

  function Block(s: State, c: Claim, reason: Reason, message: Message): Step {
    var u := UpdateIfChanged(s, c, DeletionBlocked, True, reason, message);
    if u.out == Failed then u else Step(u.s, Delayed(Backoff.DeletionDelay(c.conditions, reason, s.now)))
  }

  function CheckClassUsage(s: State, c: Claim): Step {
    if !IsTrue(c.conditions, StorageClassCreated) then Step(s, Continue)
    else if Fails(s) then Step(Next(s), Failed)
    else
      var blockers := Blockers(s.world.volumes, c.name);
      if blockers == [] then Step(Next(s), Continue)
      else Block(Next(s), c, StorageClassInUse, InUseMessage(blockers))
  }

  function CheckDeletionLabel(s: State, c: Claim): Step {
    if !IsTrue(c.conditions, FileSystemCreated) then Step(s, Continue)
    else if Fails(s) then Step(Next(s), Failed)
    else
      var owned := OwnedFilesystems(s.world.filesystems, c.name);
      if |owned| > 1 then Step(Next(s), Failed)
      else if |owned| == 1 && AllowDelete !in owned[0].labels
      then Block(Next(s), c, FileSystemLabelNotPresent, LabelMissing(owned[0].name))
      else Step(Next(s), Continue)
  }

  function DeleteClassStage(s: State, c: Claim): Step {
    if !IsTrue(c.conditions, StorageClassCreated) then Step(s, Continue)
    else if Fails(s) then Step(Next(s), Failed)
    else if c.name in s.world.classes then PatchOutcome(DeleteClass(Next(s), c.name))
    else UpdateIfChanged(Next(s), c, StorageClassCreated, False, StorageClassDeleted, ClassGone)
  }

  const FILESYSTEM_WAIT: int := 45 * Backoff.SECOND
  const DISK_WAIT: int := 30 * Backoff.SECOND

  function DeleteFilesystemStage(s: State, c: Claim): Step {
    if !IsTrue(c.conditions, FileSystemCreated) then Step(s, Continue)
    else if Fails(s) then Step(Next(s), Failed)
    else
      var owned := OwnedFilesystems(s.world.filesystems, c.name);
      if owned != [] then
        var d := DeleteFilesystem(Next(s), c.name, owned[0]);
        Step(d.s, if d.ok then Delayed(FILESYSTEM_WAIT) else Failed)
      else UpdateIfChanged(Next(s), c, FileSystemCreated, False, FilesystemDeleted, FilesystemGone)
  }

  function DeleteAll(s: State, c: Claim, disks: seq<LocalDisk>): Step
    decreases |disks|
  {
    if disks == [] then Step(s, Delayed(DISK_WAIT))
    else
      var d := DeleteDisk(s, c.name, disks[0]);
      if !d.ok then Step(d.s, Failed) else DeleteAll(d.s, c, disks[1..])
  }

  function DeleteDisksStage(s: State, c: Claim): Step {
    if !IsTrue(c.conditions, LocalDiskCreated) then Step(s, Continue)
    else if Fails(s) then Step(Next(s), Failed)
    else
      var owned := OwnedDisks(s.world.disks, c.name);
      if owned != [] then DeleteAll(Next(s), c, owned)
      else UpdateIfChanged(Next(s), c, LocalDiskCreated, False, LocalDiskDeleted, DisksGone)
  }

  function RemoveFinalizerStage(s: State, c: Claim): Step {
    PatchOutcome(RemoveFinalizer(s, c.name))
  }

  function Teardown(s: State, c: Claim): Step {
    var a := DeleteClassStage(s, c);
    if a.out != Continue then a else
    var b := DeleteFilesystemStage(a.s, c);
    if b.out != Continue then b else
    var d := DeleteDisksStage(b.s, c);
    if d.out != Continue then d else
    RemoveFinalizerStage(d.s, c)
  }

  function HandleDeletion(s: State, c: Claim): Step {
    if !c.deleting || !c.finalizer then Step(s, Continue)
    else
      var m := MarkDeletion(s, c);
      if m.out != Continue then m else
      var u := CheckClassUsage(m.s, c);
      if u.out != Continue then u else
      var l := CheckDeletionLabel(u.s, c);
      if l.out != Continue then l else
      Teardown(l.s, c)
  }

  // ---- the whole reconcile ----

  // All stages of the creation path but the last.
  function Prepare(s: State, c: Claim): Step {
    var a := EnsureLocalDisks(s, c);
    if a.out != Continue then a else
    var b := SyncLocalDisks(a.s, c);
    if b.out != Continue then b else
    PrepareClass(b.s, c)
  }

  function PrepareClass(s: State, c: Claim): Step {
    var d := EnsureFilesystem(s, c);
    if d.out != Continue then d else
    var e := SyncFilesystem(d.s, c);
    if e.out != Continue then e else
    EnsureClass(e.s, c)
  }

  function Provision(s: State, c: Claim): Step {
    var p := Prepare(s, c);
    if p.out != Continue then p else SyncReady(p.s, c)
  }

  function Reconcile(s: State, name: string): Step {
    if Fails(s) then Step(Next(s), Failed)
    else if name !in s.world.claims then Step(Next(s), Continue)
    else
      var c := s.world.claims[name];
      var a := HandleFinalizers(Next(s), c);
      if a.out != Continue then a else
      var b := HandleDeletion(a.s, c);
      if b.out != Continue then b else
      Provision(b.s, c)
  }
}
