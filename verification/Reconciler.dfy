/** The FileSystemClaim reconciler as it runs: an object that reads and writes the cluster
    through API calls that may fail.  Each method is proved against the stage function of
    ReconcilerSpec that says what it computes. */
module Reconciler {
  import opened Conditions
  import opened Cluster
  import opened ReconcilerSpec
  import opened WriteContract
  import Backoff

  class FileSystemClaimReconciler {
    var claims: map<string, Claim>
    var disks: seq<LocalDisk>
    var filesystems: seq<Filesystem>
    var classes: map<string, StorageClass>
    var volumes: seq<PersistentVolume>
    var nodes: seq<Node>
    var discovery: map<string, seq<DiscoveredDevice>>
    var faults: seq<bool>
    var pick: nat
    var now: int
    ghost var log: seq<Entry>

    ghost function Objects(): World
      reads this
    {
      World(claims, disks, filesystems, classes, volumes, nodes, discovery)
    }

    ghost function View(): State
      reads this
    {
      State(Objects(), faults, log, pick, now)
    }

    constructor (w: World, faults: seq<bool>, pick: nat, now: int)
      ensures View() == State(w, faults, [], pick, now)
    {
      claims, disks, filesystems, classes := w.claims, w.disks, w.filesystems, w.classes;
      volumes, nodes, discovery := w.volumes, w.nodes, w.discovery;
      this.faults, this.pick, this.now, log := faults, pick, now, [];
    }

    // ---- API calls ----

    // One API call: whether it fails.
    method Request() returns (fails: bool)
      modifies this
      ensures fails == Fails(old(View()))
      ensures View() == Next(old(View()))
    {
      fails := false;
      if faults != [] {
        fails := faults[0];
        faults := faults[1..];
      }
    }

    ghost method Record(a: Action)
      modifies this
      ensures View() == Logged(old(View()), a)
    {
      log := log + [Entry(Objects(), a)];
    }

    method PatchFscStatus(claim: string, news: seq<Condition>) returns (ok: bool)
      modifies this
      ensures Call(View(), ok) == PatchStatus(old(View()), claim, news)
    {
      var fails := Request();
      if fails || claim !in claims {
        return false;
      }
      Record(WroteStatus(claim, news));
      var conditions := claims[claim].conditions;
      ghost var all := UpdatedAll(conditions, news);
      for i := 0 to |news|
        invariant UpdatedAll(conditions, news[i..]) == all
        invariant View() == Logged(Next(old(View())), WroteStatus(claim, news))
      {
        assert news[i..][1..] == news[i + 1..];
        conditions := UpdateCondition(conditions, news[i]);
      }
      claims := claims[claim := claims[claim].(conditions := conditions)];
      return true;
    }

    method PatchFinalizer(claim: string, present: bool) returns (ok: bool)
      modifies this
      ensures Call(View(), ok) == if present then AddFinalizer(old(View()), claim) else RemoveFinalizer(old(View()), claim)
    {
      var fails := Request();
      if fails || claim !in claims {
        return false;
      }
      Record(if present then AddedFinalizer(claim) else RemovedFinalizer(claim));
      if !present && claims[claim].deleting {
        claims := claims - {claim};
      } else {
        claims := claims[claim := claims[claim].(finalizer := present)];
      }
      return true;
    }

    method CreateDiskObject(claim: string, d: LocalDisk) returns (ok: bool)
      modifies this
      ensures Call(View(), ok) == CreateDisk(old(View()), claim, d)
    {
      var fails := Request();
      if fails || HasDisk(disks, d.name) {
        return false;
      }
      Record(CreatedDisk(claim, d));
      disks := disks + [d];
      return true;
    }

    method CreateFilesystemObject(claim: string, f: Filesystem) returns (ok: bool)
      modifies this
      ensures Call(View(), ok) == CreateFilesystem(old(View()), claim, f)
    {
      var fails := Request();
      if fails || HasFilesystem(filesystems, f.name) {
        return false;
      }
      Record(CreatedFilesystem(claim, f));
      filesystems := filesystems + [f];
      return true;
    }

    method PatchFilesystemObject(claim: string, name: string, spec: FilesystemSpec) returns (ok: bool)
      modifies this
      ensures Call(View(), ok) == PatchFilesystem(old(View()), claim, name, spec)
    {
      var fails := Request();
      if fails {
        return false;
      }
      Record(PatchedFilesystem(claim, name, spec));
      filesystems := WithSpec(filesystems, name, spec);
      return true;
    }

    method CreateClassObject(claim: string, sc: StorageClass) returns (ok: bool)
      modifies this
      ensures Call(View(), ok) == CreateClass(old(View()), claim, sc)
    {
      var fails := Request();
      if fails || claim in classes {
        return false;
      }
      Record(CreatedClass(claim, sc));
      classes := classes[claim := sc];
      return true;
    }

    method PatchClassObject(claim: string, sc: StorageClass) returns (ok: bool)
      modifies this
      ensures Call(View(), ok) == PatchClass(old(View()), claim, sc)
    {
      var fails := Request();
      if fails {
        return false;
      }
      Record(PatchedClass(claim, sc));
      classes := classes[claim := sc];
      return true;
    }

    method DeleteClassObject(claim: string) returns (ok: bool)
      modifies this
      ensures Call(View(), ok) == DeleteClass(old(View()), claim)
    {
      var fails := Request();
      if fails {
        return false;
      }
      Record(DeletedClass(claim));
      classes := classes - {claim};
      return true;
    }

    method DeleteFilesystemObject(claim: string, f: Filesystem) returns (ok: bool)
      modifies this
      ensures Call(View(), ok) == DeleteFilesystem(old(View()), claim, f)
    {
      var fails := Request();
      if fails {
        return false;
      }
      Record(DeletedFilesystem(claim, f));
      filesystems := Terminated(filesystems, f.name);
      return true;
    }

    method DeleteDiskObject(claim: string, d: LocalDisk) returns (ok: bool)
      modifies this
      ensures Call(View(), ok) == DeleteDisk(old(View()), claim, d)
    {
      var fails := Request();
      if fails {
        return false;
      }
      Record(DeletedDisk(claim, d));
      disks := TerminatedDisk(disks, d.name);
      return true;
    }

    method ListOwnedDisks(claim: string) returns (ok: bool, owned: seq<LocalDisk>)
      modifies this
      ensures View() == Next(old(View())) && ok == !Fails(old(View()))
      ensures ok ==> owned == OwnedDisks(old(View()).world.disks, claim)
    {
      owned := [];
      var fails := Request();
      if fails {
        return false, owned;
      }
      for i := 0 to |disks|
        invariant View() == Next(old(View()))
        invariant owned + OwnedDisks(disks[i..], claim) == OwnedDisks(disks, claim)
      {
        assert disks[i..][1..] == disks[i + 1..];
        if OwnedBy(disks[i].owners, claim) {
          owned := owned + [disks[i]];
        }
      }
      return true, owned;
    }

    method ListOwnedFilesystems(claim: string) returns (ok: bool, owned: seq<Filesystem>)
      modifies this
      ensures View() == Next(old(View())) && ok == !Fails(old(View()))
      ensures ok ==> owned == OwnedFilesystems(old(View()).world.filesystems, claim)
    {
      owned := [];
      var fails := Request();
      if fails {
        return false, owned;
      }
      for i := 0 to |filesystems|
        invariant View() == Next(old(View()))
        invariant owned + OwnedFilesystems(filesystems[i..], claim) == OwnedFilesystems(filesystems, claim)
      {
        assert filesystems[i..][1..] == filesystems[i + 1..];
        if OwnedBy(filesystems[i].owners, claim) {
          owned := owned + [filesystems[i]];
        }
      }
      return true, owned;
    }

    // ---- status helpers ----

    method PatchOne(claim: string, x: Condition) returns (out: Outcome)
      modifies this
      ensures Step(View(), out) == PatchOutcome(PatchStatus(old(View()), claim, [x]))
    {
      var ok := PatchFscStatus(claim, [x]);
      return if ok then Requeue else Failed;
    }

    method UpdateConditionIfChanged(c: Claim, kind: ConditionType, status: Status, reason: Reason, message: Message)
      returns (out: Outcome)
      modifies this
      ensures Step(View(), out) == UpdateIfChanged(old(View()), c, kind, status, reason, message)
    {
      if Settled(c, kind, status, reason, message) {
        return Continue;
      }
      out := PatchOne(c.name, Condition(kind, status, reason, message, now));
    }

    method HandleResourceCreationError(c: Claim, kind: ConditionType, reason: Reason, cause: Cause) returns (out: Outcome)
      modifies this
      ensures Step(View(), out) == CreationError(old(View()), c, kind, reason, cause)
    {
      var ok := PatchFscStatus(c.name, [
        Condition(kind, False, reason, CreationRejected(cause), now),
        Condition(Ready, False, ProvisioningFailed, CreationFailed, now)]);
      return if ok then Requeue else Failed;
    }

    // ---- finalizer ----

    method HandleFinalizerStage(c: Claim) returns (out: Outcome)
      modifies this
      ensures Step(View(), out) == HandleFinalizers(old(View()), c)
    {
      if c.deleting {
        return Continue;
      }
      if !c.finalizer {
        var ok := PatchFinalizer(c.name, true);
        return if ok then Requeue else Failed;
      }
      return Continue;
    }

    // ---- local disks ----

    method ListStorageNodes() returns (ok: bool, names: seq<string>)
      modifies this
      ensures View() == Next(old(View())) && ok == !Fails(old(View()))
      ensures ok ==> names == StorageNodes(old(View()).world.nodes)
    {
      names := [];
      var fails := Request();
      if fails {
        return false, names;
      }
      for i := 0 to |nodes|
        invariant View() == Next(old(View()))
        invariant names + StorageNodes(nodes[i..]) == StorageNodes(nodes)
      {
        assert nodes[i..][1..] == nodes[i + 1..];
        if nodes[i].worker && nodes[i].storage {
          names := names + [nodes[i].name];
        }
      }
      return true, names;
    }

    // Fetch the discovery result of every storage node, up to the first that is missing.
    method FetchDiscovery(names: seq<string>) returns (ok: bool, results: map<string, seq<DiscoveredDevice>>)
      modifies this
      ensures Call(View(), ok) == FetchResults(old(View()), names)
      ensures ok ==> forall n :: n in names ==> n in results && n in discovery && results[n] == discovery[n]
    {
      results := map[];
      for i := 0 to |names|
        invariant FetchResults(old(View()), names) == FetchResults(View(), names[i..])
        invariant discovery == old(discovery)
        invariant forall j :: 0 <= j < i ==> names[j] in results && names[j] in discovery && results[names[j]] == discovery[names[j]]
      {
        assert names[i..][1..] == names[i + 1..];
        var fails := Request();
        if fails || names[i] !in discovery {
          return false, results;
        }
        results := results[names[i] := discovery[names[i]]];
      }
      ok := true;
    }

    method FoundEverywhere(device: string, names: seq<string>, results: map<string, seq<DiscoveredDevice>>) returns (ok: bool)
      requires forall n :: n in names ==> n in results
      ensures ok <==> forall n :: n in names ==> exists d :: d in results[n] && d.path == device
    {
      for k := 0 to |names|
        invariant forall m :: 0 <= m < k ==> exists d :: d in results[names[m]] && d.path == device
      {
        var found := false;
        var devices := results[names[k]];
        for j := 0 to |devices|
          invariant found <==> exists i :: 0 <= i < j && devices[i].path == device
        {
          if devices[j].path == device {
            found := true;
            break;
          }
        }
        if !found {
          return false;
        }
      }
      ok := true;
    }

    method AllFoundEverywhere(devices: seq<string>, names: seq<string>, results: map<string, seq<DiscoveredDevice>>)
      returns (ok: bool)
      requires forall n :: n in names ==> n in results && n in discovery && results[n] == discovery[n]
      ensures ok <==> forall d, n :: d in devices && n in names ==> Discovered(Objects(), n, d)
    {
      for i := 0 to |devices|
        invariant forall j, n :: 0 <= j < i && n in names ==> Discovered(Objects(), n, devices[j])
      {
        var everywhere := FoundEverywhere(devices[i], names, results);
        assert everywhere <==> forall n :: n in names ==> Discovered(Objects(), n, devices[i]);
        if !everywhere {
          return false;
        }
      }
      return true;
    }

    method ValidateDevices(c: Claim) returns (ok: bool)
      modifies this
      ensures Call(View(), ok) == Validate(old(View()), c)
      ensures ok ==> DevicesFound(old(Objects()), c.devices)
      ensures old(faults) == [] ==> (ok <==> DevicesFound(old(Objects()), c.devices))
    {
      ValidatesIff(View(), c);
      var listed, names := ListStorageNodes();
      if !listed {
        return false;
      }
      var fetched, results := FetchDiscovery(names);
      if !fetched {
        return false;
      }
      if |names| == 0 {
        return false;
      }
      ok := AllFoundEverywhere(c.devices, names, results);
    }

    method GetDeviceWwn(device: string, node: string) returns (wwn: Option<string>)
      modifies this
      ensures View() == Next(old(View()))
      ensures wwn == if Fails(old(View())) then None else DeviceWwn(old(View()).world, node, device)
    {
      var fails := Request();
      if fails || node !in discovery {
        return None;
      }
      var found := discovery[node];
      for i := 0 to |found|
        invariant View() == Next(old(View()))
        invariant FirstWwn(found, device) == FirstWwn(found[i..], device)
      {
        assert found[i..][1..] == found[i + 1..];
        if found[i].path == device {
          return if found[i].wwn == "" then None else Some(found[i].wwn);
        }
      }
      return None;
    }

    method CreateLocalDisks(c: Claim, node: string) returns (out: Outcome)
      modifies this
      ensures Step(View(), out) == CreateDisks(old(View()), c, node, 0, false)
    {
      var requeue := false;
      ghost var all := CreateDisks(View(), c, node, 0, false);
      for i := 0 to |c.devices|
        invariant CreateDisks(View(), c, node, i, requeue) == all
      {
        var device := c.devices[i];
        var wwn := GetDeviceWwn(device, node);
        if wwn.None? {
          out := HandleResourceCreationError(c, LocalDiskCreated, LocalDiskCreationFailed, NoWwn(device));
          return;
        }
        if !ValidName(wwn.value) {
          out := HandleResourceCreationError(c, LocalDiskCreated, LocalDiskCreationFailed, BadName(wwn.value));
          return;
        }
        var fails := Request();
        if fails {
          return Failed;
        }
        if HasDisk(disks, wwn.value) {
          return Continue;
        }
        var ok := CreateDiskObject(c.name, NewDisk(c.name, wwn.value, device, node));
        if !ok {
          out := HandleResourceCreationError(c, LocalDiskCreated, LocalDiskCreationFailed, CreateRejected(wwn.value));
          return;
        }
        var noted := UpdateConditionIfChanged(c, LocalDiskCreated, False, LocalDiskCreationInProgress, DisksCreated);
        if noted == Failed {
          return Failed;
        }
        requeue := true;
      }
      return if requeue then Requeue else Continue;
    }

    method CollectDevices(owned: seq<LocalDisk>) returns (devices: set<string>)
      ensures devices == DeviceSet(owned)
    {
      devices := {};
      for i := 0 to |owned|
        invariant devices == DeviceSet(owned[..i])
      {
        assert owned[..i + 1] == owned[..i] + [owned[i]];
        if owned[i].device != "" {
          devices := devices + {owned[i].device};
        }
      }
      assert owned[..|owned|] == owned;
    }

    method EnsureLocalDiskStage(c: Claim) returns (out: Outcome)
      modifies this
      ensures Step(View(), out) == EnsureLocalDisks(old(View()), c)
    {
      if IsTrue(c.conditions, LocalDiskCreated) {
        var listed, owned := ListOwnedDisks(c.name);
        if !listed {
          return Failed;
        }
        var ownedDevices := CollectDevices(owned);
        if ownedDevices != ToSet(c.devices) {
          var ok := PatchFscStatus(c.name,
            [Condition(Ready, False, ImmutableFieldModified, DevicesModified(ownedDevices, c.devices), now)]);
          return if ok then Requeue else Failed;
        }
        return Continue;
      }
      if HasReason(c.conditions, LocalDiskCreated, LocalDiskCreationInProgress) {
        return Continue;
      }
      if !IsTrue(c.conditions, DeviceValidated) {
        var valid := ValidateDevices(c);
        if !valid {
          var ok := PatchFscStatus(c.name, [
            Condition(Ready, False, ValidationFailed, DevicesInvalid, now),
            Condition(DeviceValidated, False, DeviceValidationFailed, DevicesInvalid, now)]);
          return if ok then Requeue else Failed;
        }
        var noted := UpdateConditionIfChanged(c, DeviceValidated, True, DeviceValidationSucceeded, DevicesValid);
        return if noted == Failed then Failed else Requeue;
      }
      var listed, names := ListStorageNodes();
      if !listed || names == [] {
        out := HandleResourceCreationError(c, LocalDiskCreated, LocalDiskCreationFailed, NoStorageNode);
        return;
      }
      out := CreateLocalDisks(c, Picked(names, pick));
    }

    method CheckDisksHealthy(owned: seq<LocalDisk>, own: set<string>) returns (h: Health)
      ensures h == DisksHealth(owned, own)
    {
      for i := 0 to |owned|
        invariant DisksHealth(owned, own) == DisksHealth(owned[i..], own)
      {
        assert owned[i..][1..] == owned[i + 1..];
        h := DiskHealth(owned[i], own);
        if h != Good {
          return;
        }
      }
      h := Good;
    }

    method CheckFilesystemsHealthy(owned: seq<Filesystem>) returns (h: Health)
      ensures h == FilesystemsHealth(owned)
    {
      for i := 0 to |owned|
        invariant FilesystemsHealth(owned) == FilesystemsHealth(owned[i..])
      {
        assert owned[i..][1..] == owned[i + 1..];
        h := FilesystemHealth(owned[i]);
        if h != Good {
          return;
        }
      }
      h := Good;
    }

    method ReportDisks(c: Claim, owned: seq<LocalDisk>, own: set<string>) returns (out: Outcome)
      modifies this
      ensures Step(View(), out) == DisksVerdict(old(View()), c, owned, own)
    {
      var h := CheckDisksHealthy(owned, own);
      match h
      case Good =>
        out := UpdateConditionIfChanged(c, LocalDiskCreated, True, LocalDiskCreationSucceeded, AllDisksReady(|owned|));
      case Bad(resource, problem, hard) =>
        out := UpdateConditionIfChanged(c, LocalDiskCreated, False,
          if hard then LocalDiskCreationFailed else LocalDiskCreationInProgress, ResourceProblem(resource, problem));
    }

    method SyncLocalDiskStage(c: Claim) returns (out: Outcome)
      modifies this
      ensures Step(View(), out) == SyncLocalDisks(old(View()), c)
    {
      var listed, owned := ListOwnedDisks(c.name);
      if !listed {
        return Failed;
      }
      if |owned| == 0 {
        if IsTrue(c.conditions, DeviceValidated) {
          out := UpdateConditionIfChanged(c, LocalDiskCreated, False, LocalDiskCreationInProgress, WaitingForDisks);
          return;
        }
        return Continue;
      }
      var found, ownedFilesystems := ListOwnedFilesystems(c.name);
      var listed' := if found then FilesystemNames(ownedFilesystems) else {};
      out := ReportDisks(c, owned, {c.name} + listed');
    }

    // ---- filesystem ----

    method EnsureFilesystemStage(c: Claim) returns (out: Outcome)
      modifies this
      ensures Step(View(), out) == EnsureFilesystem(old(View()), c)
    {
      if !IsTrue(c.conditions, LocalDiskCreated) {
        return Continue;
      }
      var listed, ownedDisks := ListOwnedDisks(c.name);
      if !listed {
        return Failed;
      }
      var names := DiskNames(ownedDisks);
      if |names| == 0 {
        return Continue;
      }
      var desired := BuildSpec(names);
      var found, owned := ListOwnedFilesystems(c.name);
      if !found {
        return Failed;
      }
      if |owned| == 0 {
        var ok := CreateFilesystemObject(c.name, NewFilesystem(c.name, desired));
        if !ok {
          out := HandleResourceCreationError(c, FileSystemCreated, FileSystemCreationFailed, CreateRejected(c.name));
          return;
        }
        var noted := UpdateConditionIfChanged(c, FileSystemCreated, False, FileSystemCreationInProgress, FilesystemCreated);
        return if noted == Failed then Failed else Requeue;
      }
      if |owned| == 1 {
        if owned[0].spec != desired {
          var ok := PatchFilesystemObject(c.name, owned[0].name, desired);
          return if ok then Requeue else Failed;
        }
        return Continue;
      }
      out := HandleResourceCreationError(c, FileSystemCreated, FileSystemCreationFailed, TooMany(|owned|));
    }

    method SyncFilesystemStage(c: Claim) returns (out: Outcome)
      modifies this
      ensures Step(View(), out) == SyncFilesystem(old(View()), c)
    {
      if !IsTrue(c.conditions, LocalDiskCreated) {
        return Continue;
      }
      var listed, owned := ListOwnedFilesystems(c.name);
      if !listed {
        return Failed;
      }
      if |owned| == 0 {
        out := UpdateConditionIfChanged(c, FileSystemCreated, False, FileSystemCreationInProgress, WaitingForFilesystem);
        return;
      }
      var h := CheckFilesystemsHealthy(owned);
      match h
      case Good =>
        out := UpdateConditionIfChanged(c, FileSystemCreated, True, FileSystemCreationSucceeded, FilesystemHealthy);
      case Bad(resource, problem, _) =>
        out := UpdateConditionIfChanged(c, FileSystemCreated, False, FileSystemCreationInProgress,
          ResourceProblem(resource, problem));
    }

    // ---- storage class ----

    method EnsureClassStage(c: Claim) returns (out: Outcome)
      modifies this
      ensures Step(View(), out) == EnsureClass(old(View()), c)
    {
      if !IsTrue(c.conditions, FileSystemCreated) {
        return Continue;
      }
      var desired := BuildClass(c.name);
      var fails := Request();
      if fails {
        return Failed;
      }
      if c.name !in classes {
        var ok := CreateClassObject(c.name, desired);
        if !ok {
          out := HandleResourceCreationError(c, StorageClassCreated, StorageClassCreationFailed, CreateRejected(c.name));
          return;
        }
        out := UpdateConditionIfChanged(c, StorageClassCreated, True, StorageClassCreationSucceeded, ClassCreated);
        return;
      }
      var drifted := classes[c.name] != desired;
      if drifted {
        var ok := PatchClassObject(c.name, desired);
        if !ok {
          return Failed;
        }
      }
      var noted := UpdateConditionIfChanged(c, StorageClassCreated, True, StorageClassCreationSucceeded, ClassPresent);
      return if noted == Failed then Failed else if drifted then Requeue else noted;
    }

    method SyncReadyStage(c: Claim) returns (out: Outcome)
      modifies this
      ensures Step(View(), out) == SyncReady(old(View()), c)
    {
      if AllTrue(c.conditions) {
        out := UpdateConditionIfChanged(c, Ready, True, ProvisioningSucceeded, AllProvisioned);
      } else {
        out := UpdateConditionIfChanged(c, Ready, False, ProvisioningInProgress, StillProvisioning);
      }
    }

    // ---- deletion ----

    method ListBlockers(claim: string) returns (ok: bool, blockers: seq<(string, VolumePhase)>)
      modifies this
      ensures View() == Next(old(View())) && ok == !Fails(old(View()))
      ensures ok ==> blockers == Blockers(old(View()).world.volumes, claim)
    {
      blockers := [];
      var fails := Request();
      if fails {
        return false, blockers;
      }
      for i := 0 to |volumes|
        invariant View() == Next(old(View()))
        invariant blockers + Blockers(volumes[i..], claim) == Blockers(volumes, claim)
      {
        assert volumes[i..][1..] == volumes[i + 1..];
        var pv := volumes[i];
        if Blocks(pv, claim) {
          blockers := blockers + [(pv.name, pv.phase)];
        }
      }
      return true, blockers;
    }

    method BlockDeletion(c: Claim, reason: Reason, message: Message) returns (out: Outcome)
      modifies this
      ensures Step(View(), out) == Block(old(View()), c, reason, message)
    {
      var noted := UpdateConditionIfChanged(c, DeletionBlocked, True, reason, message);
      if noted == Failed {
        return Failed;
      }
      return Delayed(Backoff.DeletionDelay(c.conditions, reason, now));
    }

    method CheckClassUsageStage(c: Claim) returns (out: Outcome)
      modifies this
      ensures Step(View(), out) == CheckClassUsage(old(View()), c)
      ensures IsTrue(c.conditions, StorageClassCreated) && ClassInUse(old(Objects()), c.name) ==> out != Continue
      ensures old(faults) == [] && !ClassInUse(old(Objects()), c.name) ==> out == Continue
    {
      if !IsTrue(c.conditions, StorageClassCreated) {
        return Continue;
      }
      var listed, blockers := ListBlockers(c.name);
      if !listed {
        return Failed;
      }
      if blockers != [] {
        out := BlockDeletion(c, StorageClassInUse, InUseMessage(blockers));
        return;
      }
      return Continue;
    }

    method CheckDeletionLabelStage(c: Claim) returns (out: Outcome)
      modifies this
      ensures Step(View(), out) == CheckDeletionLabel(old(View()), c)
    {
      if !IsTrue(c.conditions, FileSystemCreated) {
        return Continue;
      }
      var listed, owned := ListOwnedFilesystems(c.name);
      if !listed || |owned| > 1 {
        return Failed;
      }
      if |owned| > 0 && AllowDelete !in owned[0].labels {
        out := BlockDeletion(c, FileSystemLabelNotPresent, LabelMissing(owned[0].name));
        return;
      }
      return Continue;
    }

    method DeleteStorageClass(c: Claim) returns (out: Outcome)
      modifies this
      ensures Step(View(), out) == DeleteClassStage(old(View()), c)
    {
      if !IsTrue(c.conditions, StorageClassCreated) {
        return Continue;
      }
      var fails := Request();
      if fails {
        return Failed;
      }
      if c.name in classes {
        var ok := DeleteClassObject(c.name);
        return if ok then Requeue else Failed;
      }
      out := UpdateConditionIfChanged(c, StorageClassCreated, False, StorageClassDeleted, ClassGone);
    }

    method DeleteOwnedFilesystem(c: Claim) returns (out: Outcome)
      modifies this
      ensures Step(View(), out) == DeleteFilesystemStage(old(View()), c)
    {
      if !IsTrue(c.conditions, FileSystemCreated) {
        return Continue;
      }
      var listed, owned := ListOwnedFilesystems(c.name);
      if !listed {
        return Failed;
      }
      if |owned| > 0 {
        var ok := DeleteFilesystemObject(c.name, owned[0]);
        return if ok then Delayed(FILESYSTEM_WAIT) else Failed;
      }
      out := UpdateConditionIfChanged(c, FileSystemCreated, False, FilesystemDeleted, FilesystemGone);
    }

    method DeleteLocalDisks(c: Claim) returns (out: Outcome)
      modifies this
      ensures Step(View(), out) == DeleteDisksStage(old(View()), c)
    {
      if !IsTrue(c.conditions, LocalDiskCreated) {
        return Continue;
      }
      var listed, owned := ListOwnedDisks(c.name);
      if !listed {
        return Failed;
      }
      if |owned| > 0 {
        ghost var all := DeleteAll(View(), c, owned);
        for i := 0 to |owned|
          invariant DeleteAll(View(), c, owned[i..]) == all
        {
          assert owned[i..][1..] == owned[i + 1..];
          var ok := DeleteDiskObject(c.name, owned[i]);
          if !ok {
            return Failed;
          }
        }
        return Delayed(DISK_WAIT);
      }
      out := UpdateConditionIfChanged(c, LocalDiskCreated, False, LocalDiskDeleted, DisksGone);
    }

    method MarkDeletionRequested(c: Claim) returns (out: Outcome)
      modifies this
      ensures Step(View(), out) == MarkDeletion(old(View()), c)
    {
      if !HasReason(c.conditions, Ready, DeletionRequested) {
        out := UpdateConditionIfChanged(c, Ready, False, DeletionRequested, DeletionNotice);
        return;
      }
      return Continue;
    }

    method TeardownStages(c: Claim) returns (out: Outcome)
      modifies this
      ensures Step(View(), out) == Teardown(old(View()), c)
    {
      out := DeleteStorageClass(c);
      if out != Continue {
        return;
      }
      out := DeleteOwnedFilesystem(c);
      if out != Continue {
        return;
      }
      out := DeleteLocalDisks(c);
      if out != Continue {
        return;
      }
      var ok := PatchFinalizer(c.name, false);
      return if ok then Requeue else Failed;
    }

    method HandleDeletionStages(c: Claim) returns (out: Outcome)
      modifies this
      ensures Step(View(), out) == HandleDeletion(old(View()), c)
    {
      if !c.deleting || !c.finalizer {
        return Continue;
      }
      out := MarkDeletionRequested(c);
      if out != Continue {
        return;
      }
      out := CheckClassUsageStage(c);
      if out != Continue {
        return;
      }
      out := CheckDeletionLabelStage(c);
      if out != Continue {
        return;
      }
      out := TeardownStages(c);
    }

    // ---- the whole reconcile ----

    method ProvisionStages(c: Claim) returns (out: Outcome)
      modifies this
      ensures Step(View(), out) == Provision(old(View()), c)
    {
      out := EnsureLocalDiskStage(c);
      if out != Continue {
        return;
      }
      out := SyncLocalDiskStage(c);
      if out != Continue {
        return;
      }
      out := EnsureFilesystemStage(c);
      if out != Continue {
        return;
      }
      out := SyncFilesystemStage(c);
      if out != Continue {
        return;
      }
      out := EnsureClassStage(c);
      if out != Continue {
        return;
      }
      out := SyncReadyStage(c);
    }

    method ReconcileRequest(name: string) returns (out: Outcome)
      modifies this
      ensures Step(View(), out) == Reconcile(old(View()), name)
    {
      var fails := Request();
      if fails {
        return Failed;
      }
      if name !in claims {
        return Continue;
      }
      var c := claims[name];
      out := HandleFinalizerStage(c);
      if out != Continue {
        return;
      }
      out := HandleDeletionStages(c);
      if out != Continue {
        return;
      }
      out := ProvisionStages(c);
    }
  }
}
