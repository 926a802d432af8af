/** The write contract: what every single write of a reconcile is allowed to be, in terms of
    the claim snapshot and of the world the write was made in.  The log explains every change
    of the world, so an invariant of runs only has to be checked against single contracted
    writes. */
module WriteContract {
  import opened Conditions
  import opened Cluster
  import opened ReconcilerSpec
  import opened ReadySoundness

  // ---- the log explains the world ----

  function WithClaim(w: World, n: string, c: Claim): World {
    w.(claims := w.claims[n := c])
  }

  // What a write does to the world it is made in.
  function Effect(w: World, a: Action): World {
    match a
    case AddedFinalizer(n) => if n in w.claims then WithClaim(w, n, w.claims[n].(finalizer := true)) else w
    case RemovedFinalizer(n) =>
      if n !in w.claims then w
      else if w.claims[n].deleting then w.(claims := w.claims - {n})
      else WithClaim(w, n, w.claims[n].(finalizer := false))
    case WroteStatus(n, news) =>
      if n in w.claims then WithClaim(w, n, w.claims[n].(conditions := UpdatedAll(w.claims[n].conditions, news))) else w
    case CreatedDisk(_, d) => w.(disks := w.disks + [d])
    case CreatedFilesystem(_, f) => w.(filesystems := w.filesystems + [f])
    case PatchedFilesystem(_, name, spec) => w.(filesystems := WithSpec(w.filesystems, name, spec))
    case CreatedClass(n, sc) => w.(classes := w.classes[n := sc])
    case PatchedClass(n, sc) => w.(classes := w.classes[n := sc])
    case DeletedClass(n) => w.(classes := w.classes - {n})
    case DeletedFilesystem(_, f) => w.(filesystems := Terminated(w.filesystems, f.name))
    case DeletedDisk(_, d) => w.(disks := TerminatedDisk(w.disks, d.name))
  }

  // Making the writes one after the other, each in the world the one before left, leads from w to w'.
  predicate Replay(w: World, writes: seq<Entry>, w': World)
    decreases |writes|
  {
    if writes == [] then w == w'
    else writes[0].before == w && Replay(Effect(w, writes[0].action), writes[1..], w')
  }

  // The entries that t's log has beyond s's.
  function New(s: State, t: State): seq<Entry>
    requires s.log <= t.log
  {
    t.log[|s.log|..]
  }

  // From s to t, the log only grew, and replaying its new entries gives the new world.
  predicate Explained(s: State, t: State) {
    s.log <= t.log && Replay(s.world, New(s, t), t.world)
  }

  // ---- the contract ----

  // The claim is being torn down and the stages before have marked these resources as gone.
  predicate TearingDown(c: Claim) {
    c.deleting && c.finalizer
  }

  predicate Creating(c: Claim) {
    !TearingDown(c)
  }

  // ---- what the writes are made for, in terms of the objects' own fields ----

  predicate StorageNode(x: Node) {
    x.worker && x.storage
  }

  // There is a storage node, and each has a discovery result with an entry for every device.
  predicate DevicesFound(w: World, devices: seq<string>) {
    && (exists x :: x in w.nodes && StorageNode(x))
    && (forall x :: x in w.nodes && StorageNode(x) ==>
          x.name in w.discovery
          && forall device :: device in devices ==> exists d :: d in w.discovery[x.name] && d.path == device)
  }

  // The first entry for the device is this one.
  predicate FirstFound(found: seq<DiscoveredDevice>, device: string, wwn: string) {
    exists i :: 0 <= i < |found| && found[i] == DiscoveredDevice(device, wwn) && forall j :: 0 <= j < i ==> found[j].path != device
  }

  predicate Alphanumeric(ch: char) {
    'a' <= ch <= 'z' || 'A' <= ch <= 'Z' || '0' <= ch <= '9'
  }

  // At most 253 letters, digits, dashes and dots, neither dash nor dot at either end.
  predicate LegalName(name: string) {
    && 1 <= |name| <= 253
    && (forall ch :: ch in name ==> Alphanumeric(ch) || ch in "-.")
    && name[0] !in "-." && name[|name| - 1] !in "-."
  }

  // A disk for one of the devices, named by the WWN by which a storage node knows the device.
  predicate DiskFor(w: World, c: Claim, d: LocalDisk) {
    && d == LocalDisk(d.name, d.device, d.node, [OwnerRef(FusionV1Alpha1, FileSystemClaimKind, c.name)],
              map[OwnedByName := c.name, OwnedByNamespace := "ibm-spectrum-scale"], None, "", false)
    && d.device in c.devices && LegalName(d.name)
    && (exists x :: x in w.nodes && StorageNode(x) && x.name == d.node)
    && d.node in w.discovery && FirstFound(w.discovery[d.node], d.device, d.name)
  }

  // A volume that still holds the claim's storage class.
  predicate ClassInUse(w: World, claim: string) {
    exists v :: v in w.volumes && v.storageClass == claim && !v.deleting && (v.phase == Bound || v.phase == Released)
  }

  // Ready, but in use by no filesystem or by one that is none of these.
  predicate Misused(d: LocalDisk, own: set<string>) {
    && d.conditions.Some? && Says(d.conditions.value, Ready) && Says(d.conditions.value, Used)
    && (d.filesystem == "" || d.filesystem !in own)
  }

  // Not Ready, or without saying whether it is used.
  predicate Unfinished(d: LocalDisk) {
    d.conditions.None? || !Says(d.conditions.value, Ready) || Find(d.conditions.value, Used).None?
  }

  // The report about the disks names a disk that is as bad as it says.
  predicate Blames(x: Condition, d: LocalDisk, claim: string)
    requires x.message.ResourceProblem?
  {
    && d.name == x.message.resource
    && match x.reason
       case LocalDiskCreationFailed => Misused(d, {claim})
       case LocalDiskCreationInProgress => Unfinished(d)
       case _ => false
  }

  // A status write by the creation path.
  predicate ProvisionNews(w: World, c: Claim, x: Condition) {
    && SoundNews(w, c, x)
    && (x.status != True ==> BadNews(w, c, x))
  }

  // What stops being True, or is reported bad, really is.
  predicate BadNews(w: World, c: Claim, x: Condition) {
    match x.kind
    case DeviceValidated => !IsTrue(c.conditions, DeviceValidated)
    case LocalDiskCreated => x.message.ResourceProblem? ==> exists d :: d in OwnedDisks(w.disks, c.name) && Blames(x, d, c.name)
    case FileSystemCreated =>
      |OwnedFilesystems(w.filesystems, c.name)| != 1
      || exists f :: f in OwnedFilesystems(w.filesystems, c.name) && !FilesystemUsable(f)
    case StorageClassCreated => c.name !in w.classes
    case Ready =>
      && (x.reason == ProvisioningInProgress ==>
            exists kind :: kind in {DeviceValidated, LocalDiskCreated, FileSystemCreated, StorageClassCreated}
                           && !IsTrue(c.conditions, kind))
      && (x.reason == ImmutableFieldModified ==> DeviceSet(OwnedDisks(w.disks, c.name)) != ToSet(c.devices))
    case _ => false
  }

  predicate SoundNews(w: World, c: Claim, x: Condition) {
    && (x.status == True ==> !HasReason(c.conditions, x.kind, MigrationComplete))
    && x.reason != MigrationComplete
    && x.kind != DeletionBlocked
    && (x.kind == Ready && x.status == True ==> Provisioned(w, c.name))
    && (x.kind == DeviceValidated && x.status == True ==> DevicesFound(w, c.devices))
    && (x.kind == LocalDiskCreated && x.status == True ==>
          OwnedDisks(w.disks, c.name) != []
          && forall d :: d in OwnedDisks(w.disks, c.name) ==> DiskUsable(d, OwnNames(w, c.name)))
    && (x.kind == LocalDiskCreated && x.status != True && IsTrue(c.conditions, LocalDiskCreated) ==>
          OwnedDisks(w.disks, c.name) == []
          || exists d :: d in OwnedDisks(w.disks, c.name) && !DiskUsable(d, {c.name}))
    && (x.kind == FileSystemCreated && x.status == True ==>
          OwnedFilesystems(w.filesystems, c.name) != []
          && forall f :: f in OwnedFilesystems(w.filesystems, c.name) ==> FilesystemUsable(f))
    && (x.kind == StorageClassCreated && x.status == True ==>
          c.name in w.classes && w.classes[c.name] == BuildClass(c.name))
  }

  // A status write by the deletion path: a resource is marked gone only where it is absent.
  predicate DeletionNews(w: World, c: Claim, x: Condition) {
    && x.reason != MigrationComplete
    && (x.status == True ==> x.kind == DeletionBlocked && !HasReason(c.conditions, x.kind, MigrationComplete))
    && x.kind != DeviceValidated
    && (x.kind == StorageClassCreated ==> c.name !in w.classes)
    && (x.kind == FileSystemCreated ==>
          !IsTrue(c.conditions, StorageClassCreated) && OwnedFilesystems(w.filesystems, c.name) == [])
    && (x.kind == LocalDiskCreated ==>
          !IsTrue(c.conditions, StorageClassCreated) && !IsTrue(c.conditions, FileSystemCreated)
          && OwnedDisks(w.disks, c.name) == [])
  }

  predicate Allowed(e: Entry, c: Claim) {
    var w := e.before;
    && e.action.claim == c.name
    && c.name in w.claims
    && match e.action
       case AddedFinalizer(_) => !c.deleting && !c.finalizer
       case RemovedFinalizer(_) =>
         TearingDown(c) && !IsTrue(c.conditions, StorageClassCreated)
         && !IsTrue(c.conditions, FileSystemCreated) && !IsTrue(c.conditions, LocalDiskCreated)
       case WroteStatus(_, news) =>
         forall x :: x in news ==> if TearingDown(c) then DeletionNews(w, c, x) else ProvisionNews(w, c, x)
       case CreatedDisk(_, d) =>
         Creating(c) && IsTrue(c.conditions, DeviceValidated) && !IsTrue(c.conditions, LocalDiskCreated)
         && DiskFor(w, c, d) && !HasDisk(w.disks, d.name)
       case CreatedFilesystem(_, f) =>
         Creating(c) && DisksVerified(w, c.name) && OwnedFilesystems(w.filesystems, c.name) == []
         && !HasFilesystem(w.filesystems, f.name)
         && f == NewFilesystem(c.name, BuildSpec(DiskNames(OwnedDisks(w.disks, c.name))))
       case PatchedFilesystem(_, name, spec) =>
         Creating(c) && DisksVerified(w, c.name)
         && |OwnedFilesystems(w.filesystems, c.name)| == 1 && OwnedFilesystems(w.filesystems, c.name)[0].name == name
         && spec == BuildSpec(DiskNames(OwnedDisks(w.disks, c.name)))
       case CreatedClass(_, sc) =>
         Creating(c) && c.name !in w.classes && sc == BuildClass(c.name) && IsTrue(c.conditions, FileSystemCreated)
       case PatchedClass(_, sc) =>
         Creating(c) && c.name in w.classes && w.classes[c.name] != sc && sc == BuildClass(c.name)
         && IsTrue(c.conditions, FileSystemCreated)
       case DeletedClass(_) =>
         TearingDown(c) && c.name in w.classes && !ClassInUse(w, c.name)
       case DeletedFilesystem(_, f) =>
         TearingDown(c) && !IsTrue(c.conditions, StorageClassCreated)
         && OwnedFilesystems(w.filesystems, c.name) == [f] && AllowDelete in f.labels
       case DeletedDisk(_, d) =>
         TearingDown(c) && !IsTrue(c.conditions, StorageClassCreated) && !IsTrue(c.conditions, FileSystemCreated)
         && OwnedBy(d.owners, c.name) && Holds(w, c.name, d.name)
  }

  // A disk of this name is owned by the claim.
  predicate Holds(w: World, claim: string, name: string) {
    exists d :: d in w.disks && d.name == name && OwnedBy(d.owners, claim)
  }

  predicate AllAllowed(writes: seq<Entry>, c: Claim) {
    forall e :: e in writes ==> Allowed(e, c)
  }

  // The log explains the change from s to t and all its new entries are allowed.
  predicate Contracted(s: State, t: State, c: Claim) {
    && Explained(s, t)
    && AllAllowed(New(s, t), c)
    && t.now == s.now && t.pick == s.pick
  }

  lemma {:induction false} ReplayChain(w: World, first: seq<Entry>, w': World, second: seq<Entry>, w'': World)
    requires Replay(w, first, w') && Replay(w', second, w'')
    ensures Replay(w, first + second, w'')
    decreases |first|
  {
    if first == [] {
      assert first + second == second;
    } else {
      ReplayChain(Effect(w, first[0].action), first[1..], w', second, w'');
      assert (first + second)[1..] == first[1..] + second;
    }
  }

  lemma Chained(s: State, t: State, u: State, c: Claim)
    requires Contracted(s, t, c) && Contracted(t, u, c)
    ensures Contracted(s, u, c)
  {
    ReplayChain(s.world, New(s, t), t.world, New(t, u), u.world);
    assert New(s, u) == New(s, t) + New(t, u);
  }

  // ---- single calls ----

  // One allowed write, logged, is contracted.
  lemma OneWrite(s: State, t: State, a: Action, c: Claim)
    requires t.log == s.log + [Entry(s.world, a)] && t.world == Effect(s.world, a) && t.now == s.now && t.pick == s.pick
    requires Allowed(Entry(s.world, a), c)
    ensures Contracted(s, t, c)
  {
    assert New(s, t) == [Entry(s.world, a)];
    assert [Entry(s.world, a)][1..] == [];
    assert Replay(Effect(s.world, a), [], t.world);
  }

  lemma PatchContracted(s: State, c: Claim, news: seq<Condition>)
    requires c.name in s.world.claims
    requires forall x :: x in news ==> if TearingDown(c) then DeletionNews(s.world, c, x) else ProvisionNews(s.world, c, x)
    ensures Contracted(s, PatchStatus(s, c.name, news).s, c)
  {
    if !Fails(s) {
      OneWrite(s, PatchStatus(s, c.name, news).s, WroteStatus(c.name, news), c);
    }
  }

  lemma UpdateContracted(s: State, c: Claim, kind: ConditionType, status: Status, reason: Reason, message: Message)
    requires c.name in s.world.claims
    requires !Settled(c, kind, status, reason, message) ==>
      var x := Condition(kind, status, reason, message, s.now);
      if TearingDown(c) then DeletionNews(s.world, c, x) else ProvisionNews(s.world, c, x)
    ensures Contracted(s, UpdateIfChanged(s, c, kind, status, reason, message).s, c)
  {
    if !Settled(c, kind, status, reason, message) {
      PatchContracted(s, c, [Condition(kind, status, reason, message, s.now)]);
    }
  }

  lemma ErrorContracted(s: State, c: Claim, kind: ConditionType, reason: Reason, cause: Cause)
    requires c.name in s.world.claims && Creating(c) && reason != MigrationComplete && kind != DeletionBlocked
    requires kind == LocalDiskCreated ==> !IsTrue(c.conditions, LocalDiskCreated)
    requires BadNews(s.world, c, Condition(kind, False, reason, CreationRejected(cause), s.now))
    ensures Contracted(s, CreationError(s, c, kind, reason, cause).s, c)
  {
    PatchContracted(s, c, [
      Condition(kind, False, reason, CreationRejected(cause), s.now),
      Condition(Ready, False, ProvisioningFailed, CreationFailed, s.now)]);
  }

  // ---- the creation path ----

  lemma DiskErrorContracted(s: State, t: State, c: Claim, cause: Cause)
    requires c.name in s.world.claims && Creating(c) && SameWorld(s, t) && !IsTrue(c.conditions, LocalDiskCreated)
    ensures var u := DiskError(t, c, cause).s; Contracted(s, u, c) && c.name in u.world.claims
  {
    ErrorContracted(t, c, LocalDiskCreated, LocalDiskCreationFailed, cause);
    Chained(s, t, DiskError(t, c, cause).s, c);
  }

  // The disk stage has got to the creation.
  predicate MayCreate(c: Claim) {
    Creating(c) && IsTrue(c.conditions, DeviceValidated) && !IsTrue(c.conditions, LocalDiskCreated)
  }

  lemma {:induction false} FirstWwnFound(found: seq<DiscoveredDevice>, device: string)
    requires FirstWwn(found, device).Some?
    ensures FirstFound(found, device, FirstWwn(found, device).value)
  {
    if found[0].path == device {
      assert found[0] == DiscoveredDevice(device, found[0].wwn);
    } else {
      var wwn := FirstWwn(found, device).value;
      FirstWwnFound(found[1..], device);
      var i :| 0 <= i < |found[1..]| && found[1..][i] == DiscoveredDevice(device, wwn)
               && forall j :: 0 <= j < i ==> found[1..][j].path != device;
      assert found[i + 1] == DiscoveredDevice(device, wwn);
      forall j | 0 <= j < i + 1 ensures found[j].path != device {
        if j > 0 {
          assert found[1..][j - 1].path != device;
        }
      }
    }
  }

  lemma ValidNameIsLegal(name: string)
    ensures ValidName(name) <==> LegalName(name)
  {
    if ValidName(name) {
      forall ch | ch in name ensures Alphanumeric(ch) || ch in "-." {
        var i :| 0 <= i < |name| && name[i] == ch;
      }
    }
    if LegalName(name) {
      forall i | 0 <= i < |name| ensures IsAlphanumeric(name[i]) || name[i] == '-' || name[i] == '.' {
        assert name[i] in name;
      }
      assert name[0] in name && name[|name| - 1] in name;
    }
  }

  lemma NewDiskIsFor(w: World, c: Claim, node: string, device: string, wwn: string)
    requires device in c.devices && node in StorageNodes(w.nodes)
    requires DeviceWwn(w, node, device) == Some(wwn) && ValidName(wwn)
    ensures DiskFor(w, c, NewDisk(c.name, wwn, device, node))
  {
    FirstWwnFound(w.discovery[node], device);
    ValidNameIsLegal(wwn);
  }

  lemma DiskCreationAllowed(s: State, c: Claim, d: LocalDisk)
    requires c.name in s.world.claims && MayCreate(c)
    requires DiskFor(s.world, c, d) && !HasDisk(s.world.disks, d.name)
    ensures Contracted(s, CreateDisk(s, c.name, d).s, c)
  {
    if !Fails(s) {
      OneWrite(s, CreateDisk(s, c.name, d).s, CreatedDisk(c.name, d), c);
    }
  }

  lemma DiskNoted(s: State, t: State, c: Claim, d: LocalDisk)
    requires c.name in s.world.claims && MayCreate(c) && SameWorld(s, t)
    requires DiskFor(s.world, c, d) && !HasDisk(s.world.disks, d.name)
    ensures
      var made := CreateDisk(t, c.name, d);
      var noted := UpdateIfChanged(made.s, c, LocalDiskCreated, False, LocalDiskCreationInProgress, DisksCreated);
      Contracted(s, noted.s, c) && c.name in noted.s.world.claims
  {
    var made := CreateDisk(t, c.name, d);
    var noted := UpdateIfChanged(made.s, c, LocalDiskCreated, False, LocalDiskCreationInProgress, DisksCreated);
    DiskCreationAllowed(t, c, d);
    UpdateContracted(made.s, c, LocalDiskCreated, False, LocalDiskCreationInProgress, DisksCreated);
    Chained(t, made.s, noted.s, c);
    Chained(s, t, noted.s, c);
  }

  lemma {:induction false} CreateDisksContracted(s: State, c: Claim, node: string, i: nat, created: bool)
    requires c.name in s.world.claims && MayCreate(c) && node in StorageNodes(s.world.nodes)
    requires i <= |c.devices|
    ensures var t := CreateDisks(s, c, node, i, created).s; Contracted(s, t, c) && c.name in t.world.claims
    decreases |c.devices| - i
  {
    if i < |c.devices| {
      var wwn := DeviceWwn(s.world, node, c.devices[i]);
      if Fails(s) || wwn.None? {
        DiskErrorContracted(s, Next(s), c, NoWwn(c.devices[i]));
      } else if !ValidName(wwn.value) {
        DiskErrorContracted(s, Next(s), c, BadName(wwn.value));
      } else if !Fails(Next(s)) && !HasDisk(s.world.disks, wwn.value) {
        var d := NewDisk(c.name, wwn.value, c.devices[i], node);
        var made := CreateDisk(Next(Next(s)), c.name, d);
        NewDiskIsFor(s.world, c, node, c.devices[i], wwn.value);
        if !made.ok {
          DiskErrorContracted(s, made.s, c, CreateRejected(wwn.value));
        } else {
          DiskNoted(s, Next(Next(s)), c, d);
          var noted := UpdateIfChanged(made.s, c, LocalDiskCreated, False, LocalDiskCreationInProgress, DisksCreated);
          if noted.out != Failed {
            CreateDisksContracted(noted.s, c, node, i + 1, true);
            Chained(s, noted.s, CreateDisks(noted.s, c, node, i + 1, true).s, c);
          }
        }
      }
    }
  }

  lemma ValidatedIsFound(s: State, c: Claim)
    requires Validate(s, c).ok
    ensures DevicesFound(s.world, c.devices)
  {
    var w, nodes := s.world, StorageNodes(s.world.nodes);
    assert nodes[0] in nodes;
    forall x | x in w.nodes && StorageNode(x)
      ensures x.name in w.discovery
      ensures forall device :: device in c.devices ==> exists d :: d in w.discovery[x.name] && d.path == device
    {
      assert x.name in nodes;
      assert forall device :: device in c.devices ==> Discovered(w, x.name, device);
    }
  }

  lemma {:induction false} ResultsIff(s: State, nodes: seq<string>)
    requires s.faults == []
    ensures FetchResults(s, nodes) == Call(s, forall n :: n in nodes ==> n in s.world.discovery)
  {
    if nodes != [] {
      assert nodes == [nodes[0]] + nodes[1..];
      if nodes[0] in s.world.discovery {
        ResultsIff(s, nodes[1..]);
      }
    }
  }

  lemma FoundIsAll(w: World, devices: seq<string>)
    requires DevicesFound(w, devices)
    ensures AllDiscovered(w, devices)
  {
    var nodes := StorageNodes(w.nodes);
    var x :| x in w.nodes && StorageNode(x);
    assert x.name in nodes;
    forall d, m | d in devices && m in nodes ensures Discovered(w, m, d) {
      var y :| y in w.nodes && StorageNode(y) && y.name == m;
    }
  }

  // A validation succeeds only, and undisturbed exactly, where the devices are found.
  lemma ValidatesIff(s: State, c: Claim)
    ensures Validate(s, c).ok ==> DevicesFound(s.world, c.devices)
    ensures s.faults == [] ==> Validate(s, c) == Call(s, DevicesFound(s.world, c.devices))
  {
    if Validate(s, c).ok {
      ValidatedIsFound(s, c);
    }
    if s.faults == [] {
      ResultsIff(s, StorageNodes(s.world.nodes));
      if DevicesFound(s.world, c.devices) {
        FoundIsAll(s.world, c.devices);
      }
    }
  }

  lemma ValidateContracted(s: State, c: Claim)
    requires c.name in s.world.claims && Creating(c) && !IsTrue(c.conditions, DeviceValidated)
    requires Unique(c.conditions)
    ensures Contracted(s, ValidateStage(s, c).s, c) && c.name in ValidateStage(s, c).s.world.claims
  {
    var v := Validate(s, c);
    assert Contracted(s, v.s, c);
    if !v.ok {
      var news := [
        Condition(Ready, False, ValidationFailed, DevicesInvalid, s.now),
        Condition(DeviceValidated, False, DeviceValidationFailed, DevicesInvalid, s.now)];
      PatchContracted(v.s, c, news);
      Chained(s, v.s, PatchStatus(v.s, c.name, news).s, c);
    } else {
      ValidatesIff(s, c);
      UpdateContracted(v.s, c, DeviceValidated, True, DeviceValidationSucceeded, DevicesValid);
      Chained(s, v.s, ValidateStage(s, c).s, c);
    }
  }

  lemma EnsureDisksContracted(s: State, c: Claim)
    requires Snapshot(s, c) && Creating(c)
    ensures var t := EnsureLocalDisks(s, c).s; Contracted(s, t, c) && c.name in t.world.claims
  {
    var t := EnsureLocalDisks(s, c).s;
    if IsTrue(c.conditions, LocalDiskCreated) {
      if !Fails(s) {
        var owned := DeviceSet(OwnedDisks(s.world.disks, c.name));
        if owned != ToSet(c.devices) {
          PatchContracted(Next(s), c,
            [Condition(Ready, False, ImmutableFieldModified, DevicesModified(owned, c.devices), s.now)]);
          Chained(s, Next(s), t, c);
        }
      }
    } else if HasReason(c.conditions, LocalDiskCreated, LocalDiskCreationInProgress) {
    } else if !IsTrue(c.conditions, DeviceValidated) {
      ValidateContracted(s, c);
    } else {
      CreateStageContracted(s, c);
    }
  }

  lemma CreateStageContracted(s: State, c: Claim)
    requires Snapshot(s, c) && MayCreate(c)
    ensures var t := CreateStage(s, c).s; Contracted(s, t, c) && c.name in t.world.claims
  {
    var nodes := StorageNodes(s.world.nodes);
    if Fails(s) || nodes == [] {
      ErrorContracted(Next(s), c, LocalDiskCreated, LocalDiskCreationFailed, NoStorageNode);
    } else {
      CreateDisksContracted(Next(s), c, Picked(nodes, s.pick), 0, false);
    }
    Chained(s, Next(s), CreateStage(s, c).s, c);
  }

  lemma SyncDisksContracted(s: State, c: Claim)
    requires c.name in s.world.claims && Creating(c)
    ensures var t := SyncLocalDisks(s, c).s; Contracted(s, t, c) && c.name in t.world.claims
  {
    var t := SyncLocalDisks(s, c).s;
    if !Fails(s) {
      var owned := OwnedDisks(s.world.disks, c.name);
      if owned == [] {
        UpdateContracted(Next(s), c, LocalDiskCreated, False, LocalDiskCreationInProgress, WaitingForDisks);
        Chained(s, Next(s), t, c);
      } else {
        var listed := if Fails(Next(s)) then {} else FilesystemNames(OwnedFilesystems(s.world.filesystems, c.name));
        VerdictContracted(Next(Next(s)), c, {c.name} + listed);
        Chained(s, Next(Next(s)), t, c);
      }
    }
  }

  // The disk whose health decides.
  lemma {:induction false} BadDisk(disks: seq<LocalDisk>, own: set<string>) returns (d: LocalDisk)
    requires DisksHealth(disks, own) != Good
    ensures d in disks && DiskHealth(d, own) == DisksHealth(disks, own) && d.name == DisksHealth(disks, own).resource
    ensures DisksHealth(disks, own).hard ==> Misused(d, own)
    ensures !DisksHealth(disks, own).hard ==> Unfinished(d)
  {
    if DiskHealth(disks[0], own) != Good {
      d := disks[0];
    } else {
      d := BadDisk(disks[1..], own);
    }
  }

  lemma VerdictContracted(s: State, c: Claim, own: set<string>)
    requires c.name in s.world.claims && Creating(c)
    requires {c.name} <= own <= OwnNames(s.world, c.name) && OwnedDisks(s.world.disks, c.name) != []
    ensures var t := DisksVerdict(s, c, OwnedDisks(s.world.disks, c.name), own).s;
      Contracted(s, t, c) && c.name in t.world.claims
  {
    var owned := OwnedDisks(s.world.disks, c.name);
    match DisksHealth(owned, own) {
      case Good =>
        forall d | d in owned ensures DiskUsable(d, OwnNames(s.world, c.name)) {
          DiskHealthMeaning(d, own);
        }
        UpdateContracted(s, c, LocalDiskCreated, True, LocalDiskCreationSucceeded, AllDisksReady(|owned|));
      case Bad(resource, problem, hard) =>
        var d := BadDisk(owned, own);
        DiskHealthMeaning(d, own);
        assert !DiskUsable(d, {c.name});
        var x := Condition(LocalDiskCreated, False,
          if hard then LocalDiskCreationFailed else LocalDiskCreationInProgress, ResourceProblem(resource, problem), s.now);
        assert Blames(x, d, c.name);
        UpdateContracted(s, c, LocalDiskCreated, False,
          if hard then LocalDiskCreationFailed else LocalDiskCreationInProgress, ResourceProblem(resource, problem));
    }
  }

  lemma EnsureFilesystemContracted(s: State, c: Claim)
    requires c.name in s.world.claims && Creating(c)
    requires IsTrue(c.conditions, LocalDiskCreated) && OwnedDisks(s.world.disks, c.name) != [] ==> DisksVerified(s.world, c.name)
    ensures var t := EnsureFilesystem(s, c).s; Contracted(s, t, c) && c.name in t.world.claims
  {
    var t := EnsureFilesystem(s, c).s;
    if IsTrue(c.conditions, LocalDiskCreated) && !Fails(s) {
      var names := DiskNames(OwnedDisks(s.world.disks, c.name));
      if names != [] && !Fails(Next(s)) {
        var s2 := Next(Next(s));
        var owned := OwnedFilesystems(s.world.filesystems, c.name);
        if |owned| == 0 {
          MakeFilesystemContracted(s2, c);
        } else if |owned| == 1 {
          PatchFilesystemContracted(s2, c);
        } else {
          ErrorContracted(s2, c, FileSystemCreated, FileSystemCreationFailed, TooMany(|owned|));
        }
        Chained(s, s2, t, c);
      }
    }
  }

  lemma FilesystemCreationAllowed(s: State, c: Claim, f: Filesystem)
    requires c.name in s.world.claims && Creating(c) && DisksVerified(s.world, c.name)
    requires OwnedFilesystems(s.world.filesystems, c.name) == []
    requires f == NewFilesystem(c.name, BuildSpec(DiskNames(OwnedDisks(s.world.disks, c.name))))
    ensures var made := CreateFilesystem(s, c.name, f).s; Contracted(s, made, c) && c.name in made.world.claims
  {
    if !Fails(s) && !HasFilesystem(s.world.filesystems, f.name) {
      OneWrite(s, CreateFilesystem(s, c.name, f).s, CreatedFilesystem(c.name, f), c);
    }
  }

  lemma MakeFilesystemContracted(s: State, c: Claim)
    requires c.name in s.world.claims && Creating(c) && DisksVerified(s.world, c.name)
    requires OwnedFilesystems(s.world.filesystems, c.name) == []
    ensures var t := MakeFilesystem(s, c, BuildSpec(DiskNames(OwnedDisks(s.world.disks, c.name)))).s;
      Contracted(s, t, c) && c.name in t.world.claims
  {
    var spec := BuildSpec(DiskNames(OwnedDisks(s.world.disks, c.name)));
    var made := CreateFilesystem(s, c.name, NewFilesystem(c.name, spec));
    var t := MakeFilesystem(s, c, spec).s;
    FilesystemCreationAllowed(s, c, NewFilesystem(c.name, spec));
    if !made.ok {
      ErrorContracted(made.s, c, FileSystemCreated, FileSystemCreationFailed, CreateRejected(c.name));
    } else {
      assert NewFilesystem(c.name, spec) in made.s.world.filesystems;
      UpdateContracted(made.s, c, FileSystemCreated, False, FileSystemCreationInProgress, FilesystemCreated);
    }
    Chained(s, made.s, t, c);
  }

  lemma PatchFilesystemContracted(s: State, c: Claim)
    requires c.name in s.world.claims && Creating(c) && DisksVerified(s.world, c.name)
    requires |OwnedFilesystems(s.world.filesystems, c.name)| == 1
    ensures Contracted(s, PatchFilesystem(s, c.name, OwnedFilesystems(s.world.filesystems, c.name)[0].name,
                            BuildSpec(DiskNames(OwnedDisks(s.world.disks, c.name)))).s, c)
  {
    if !Fails(s) {
      var name, spec := OwnedFilesystems(s.world.filesystems, c.name)[0].name, BuildSpec(DiskNames(OwnedDisks(s.world.disks, c.name)));
      OneWrite(s, PatchFilesystem(s, c.name, name, spec).s, PatchedFilesystem(c.name, name, spec), c);
    }
  }

  lemma SyncFilesystemContracted(s: State, c: Claim)
    requires c.name in s.world.claims && Creating(c)
    ensures var t := SyncFilesystem(s, c).s; Contracted(s, t, c) && c.name in t.world.claims
  {
    if IsTrue(c.conditions, LocalDiskCreated) && !Fails(s) {
      var owned := OwnedFilesystems(s.world.filesystems, c.name);
      if owned == [] {
        UpdateContracted(Next(s), c, FileSystemCreated, False, FileSystemCreationInProgress, WaitingForFilesystem);
      } else {
        match FilesystemsHealth(owned) {
          case Good =>
            forall f | f in owned ensures FilesystemUsable(f) {
              FilesystemHealthMeaning(f);
            }
            UpdateContracted(Next(s), c, FileSystemCreated, True, FileSystemCreationSucceeded, FilesystemHealthy);
          case Bad(resource, problem, _) =>
            var f :| f in owned && FilesystemHealth(f) != Good;
            FilesystemHealthMeaning(f);
            UpdateContracted(Next(s), c, FileSystemCreated, False, FileSystemCreationInProgress,
              ResourceProblem(resource, problem));
        }
      }
      Chained(s, Next(s), SyncFilesystem(s, c).s, c);
    }
  }

  lemma ClassWritesAllowed(s: State, c: Claim)
    requires c.name in s.world.claims && Creating(c) && IsTrue(c.conditions, FileSystemCreated)
    ensures c.name !in s.world.classes ==> Contracted(s, CreateClass(s, c.name, BuildClass(c.name)).s, c)
    ensures c.name in s.world.classes && s.world.classes[c.name] != BuildClass(c.name) ==>
      Contracted(s, PatchClass(s, c.name, BuildClass(c.name)).s, c)
  {
    if !Fails(s) {
      if c.name !in s.world.classes {
        OneWrite(s, CreateClass(s, c.name, BuildClass(c.name)).s, CreatedClass(c.name, BuildClass(c.name)), c);
      } else if s.world.classes[c.name] != BuildClass(c.name) {
        OneWrite(s, PatchClass(s, c.name, BuildClass(c.name)).s, PatchedClass(c.name, BuildClass(c.name)), c);
      }
    }
  }

  lemma MakeClassContracted(s: State, c: Claim)
    requires c.name in s.world.claims && Creating(c) && IsTrue(c.conditions, FileSystemCreated)
    requires c.name !in s.world.classes
    ensures var t := MakeClass(s, c).s; Contracted(s, t, c) && c.name in t.world.claims
  {
    var made := CreateClass(s, c.name, BuildClass(c.name));
    ClassWritesAllowed(s, c);
    if !made.ok {
      ErrorContracted(made.s, c, StorageClassCreated, StorageClassCreationFailed, CreateRejected(c.name));
    } else {
      UpdateContracted(made.s, c, StorageClassCreated, True, StorageClassCreationSucceeded, ClassCreated);
    }
    Chained(s, made.s, MakeClass(s, c).s, c);
  }

  lemma KeepClassContracted(s: State, c: Claim)
    requires c.name in s.world.claims && Creating(c) && IsTrue(c.conditions, FileSystemCreated)
    requires c.name in s.world.classes
    ensures var t := KeepClass(s, c).s; Contracted(s, t, c) && c.name in t.world.claims
  {
    var drifted := s.world.classes[c.name] != BuildClass(c.name);
    var p := if drifted then PatchClass(s, c.name, BuildClass(c.name)) else Call(s, true);
    ClassWritesAllowed(s, c);
    if p.ok {
      UpdateContracted(p.s, c, StorageClassCreated, True, StorageClassCreationSucceeded, ClassPresent);
      Chained(s, p.s, KeepClass(s, c).s, c);
    }
  }

  lemma EnsureClassContracted(s: State, c: Claim)
    requires c.name in s.world.claims && Creating(c)
    ensures var t := EnsureClass(s, c).s; Contracted(s, t, c) && c.name in t.world.claims
  {
    if IsTrue(c.conditions, FileSystemCreated) && !Fails(s) {
      if c.name !in s.world.classes {
        MakeClassContracted(Next(s), c);
      } else {
        KeepClassContracted(Next(s), c);
      }
      Chained(s, Next(s), EnsureClass(s, c).s, c);
    }
  }

  lemma SyncReadyContracted(s: State, c: Claim)
    requires c.name in s.world.claims && Creating(c)
    requires AllTrue(c.conditions) ==> Provisioned(s.world, c.name)
    ensures Contracted(s, SyncReady(s, c).s, c)
  {
    if AllTrue(c.conditions) {
      UpdateContracted(s, c, Ready, True, ProvisioningSucceeded, AllProvisioned);
    } else {
      UpdateContracted(s, c, Ready, False, ProvisioningInProgress, StillProvisioning);
    }
  }

  lemma PrepareClassContracted(s: State, c: Claim)
    requires c.name in s.world.claims && Creating(c)
    requires IsTrue(c.conditions, LocalDiskCreated) && OwnedDisks(s.world.disks, c.name) != [] ==> DisksVerified(s.world, c.name)
    ensures var t := PrepareClass(s, c).s; Contracted(s, t, c) && c.name in t.world.claims
  {
    EnsureFilesystemContracted(s, c);
    var d := EnsureFilesystem(s, c);
    if d.out == Continue {
      SyncFilesystemContracted(d.s, c);
      var e := SyncFilesystem(d.s, c);
      Chained(s, d.s, e.s, c);
      if e.out == Continue {
        EnsureClassContracted(e.s, c);
        Chained(s, e.s, EnsureClass(e.s, c).s, c);
      }
    }
  }

  lemma PrepareContracted(s: State, c: Claim)
    requires Snapshot(s, c) && Creating(c)
    ensures var t := Prepare(s, c).s; Contracted(s, t, c) && c.name in t.world.claims
  {
    EnsureDisksContracted(s, c);
    var a := EnsureLocalDisks(s, c);
    if a.out == Continue {
      SyncDisksContracted(a.s, c);
      var b := SyncLocalDisks(a.s, c);
      Chained(s, a.s, b.s, c);
      if b.out == Continue {
        if IsTrue(c.conditions, LocalDiskCreated) {
          DisksGate(s, c);
        }
        PrepareClassContracted(b.s, c);
        Chained(s, b.s, PrepareClass(b.s, c).s, c);
      }
    }
  }

  lemma ProvisionContracted(s: State, c: Claim)
    requires Snapshot(s, c) && Creating(c)
    ensures Contracted(s, Provision(s, c).s, c)
  {
    PrepareContracted(s, c);
    var p := Prepare(s, c);
    if p.out == Continue {
      if AllTrue(c.conditions) {
        AggregateSound(s, c);
      }
      SyncReadyContracted(p.s, c);
      Chained(s, p.s, SyncReady(p.s, c).s, c);
    }
  }

  // ---- the deletion path ----

  lemma BlockContracted(s: State, c: Claim, reason: Reason, message: Message)
    requires c.name in s.world.claims && TearingDown(c) && reason != MigrationComplete
    ensures Contracted(s, Block(s, c, reason, message).s, c)
  {
    UpdateContracted(s, c, DeletionBlocked, True, reason, message);
  }

  lemma DeleteClassContracted(s: State, c: Claim)
    requires Snapshot(s, c) && TearingDown(c)
    requires UsageChecked(s, c)
    ensures Contracted(s, DeleteClassStage(s, c).s, c)
    ensures DeleteClassStage(s, c).out == Continue ==>
      SameWorld(s, DeleteClassStage(s, c).s) && !IsTrue(c.conditions, StorageClassCreated)
  {
    if IsTrue(c.conditions, StorageClassCreated) && !Fails(s) {
      if c.name !in s.world.classes {
        TrueIsFirst(c.conditions, StorageClassCreated);
        UpdateContracted(Next(s), c, StorageClassCreated, False, StorageClassDeleted, ClassGone);
      } else {
        ClassDeleted(Next(s), c);
      }
      Chained(s, Next(s), DeleteClassStage(s, c).s, c);
    }
  }

  lemma ClassDeleted(s: State, c: Claim)
    requires c.name in s.world.claims && TearingDown(c) && c.name in s.world.classes && !ClassInUse(s.world, c.name)
    ensures Contracted(s, DeleteClass(s, c.name).s, c)
  {
    if !Fails(s) {
      OneWrite(s, DeleteClass(s, c.name).s, DeletedClass(c.name), c);
    }
  }

  lemma DeleteFilesystemContracted(s: State, c: Claim)
    requires Snapshot(s, c) && TearingDown(c) && !IsTrue(c.conditions, StorageClassCreated)
    requires LabelChecked(s, c)
    ensures Contracted(s, DeleteFilesystemStage(s, c).s, c)
    ensures DeleteFilesystemStage(s, c).out == Continue ==>
      SameWorld(s, DeleteFilesystemStage(s, c).s) && !IsTrue(c.conditions, FileSystemCreated)
  {
    var owned := OwnedFilesystems(s.world.filesystems, c.name);
    if IsTrue(c.conditions, FileSystemCreated) && !Fails(s) {
      if owned == [] {
        TrueIsFirst(c.conditions, FileSystemCreated);
        UpdateContracted(Next(s), c, FileSystemCreated, False, FilesystemDeleted, FilesystemGone);
      } else {
        assert owned == [owned[0]];
        OneFilesystemDeleted(Next(s), c, owned[0]);
      }
      Chained(s, Next(s), DeleteFilesystemStage(s, c).s, c);
    }
  }

  lemma OneFilesystemDeleted(s: State, c: Claim, f: Filesystem)
    requires c.name in s.world.claims && TearingDown(c) && !IsTrue(c.conditions, StorageClassCreated)
    requires OwnedFilesystems(s.world.filesystems, c.name) == [f] && AllowDelete in f.labels
    ensures Contracted(s, DeleteFilesystem(s, c.name, f).s, c)
  {
    if !Fails(s) {
      OneWrite(s, DeleteFilesystem(s, c.name, f).s, DeletedFilesystem(c.name, f), c);
    }
  }

  lemma OneDiskDeleted(s: State, c: Claim, d: LocalDisk)
    requires c.name in s.world.claims && TearingDown(c)
    requires !IsTrue(c.conditions, StorageClassCreated) && !IsTrue(c.conditions, FileSystemCreated)
    requires OwnedBy(d.owners, c.name) && Holds(s.world, c.name, d.name)
    ensures Contracted(s, DeleteDisk(s, c.name, d).s, c)
    ensures c.name in DeleteDisk(s, c.name, d).s.world.claims
  {
    if !Fails(s) {
      OneWrite(s, DeleteDisk(s, c.name, d).s, DeletedDisk(c.name, d), c);
    }
  }

  // A terminating disk keeps its owners.
  lemma TerminatingIsOwned(w: World, deleted: string, name: string, claim: string)
    requires Holds(w, claim, name)
    ensures Holds(w.(disks := TerminatedDisk(w.disks, deleted)), claim, name)
  {
    var d :| d in w.disks && d.name == name && OwnedBy(d.owners, claim);
    var i :| 0 <= i < |w.disks| && w.disks[i] == d;
    var d' := TerminatedDisk(w.disks, deleted)[i];
    assert d' in TerminatedDisk(w.disks, deleted) && d'.name == name && OwnedBy(d'.owners, claim);
  }

  lemma {:induction false} DeleteAllContracted(s: State, c: Claim, disks: seq<LocalDisk>)
    requires c.name in s.world.claims && TearingDown(c)
    requires !IsTrue(c.conditions, StorageClassCreated) && !IsTrue(c.conditions, FileSystemCreated)
    requires forall d :: d in disks ==> OwnedBy(d.owners, c.name) && Holds(s.world, c.name, d.name)
    ensures Contracted(s, DeleteAll(s, c, disks).s, c)
    decreases |disks|
  {
    if disks != [] {
      var d := DeleteDisk(s, c.name, disks[0]);
      OneDiskDeleted(s, c, disks[0]);
      if d.ok {
        forall x | x in disks[1..] ensures Holds(d.s.world, c.name, x.name) {
          TerminatingIsOwned(s.world, disks[0].name, x.name, c.name);
        }
        DeleteAllContracted(d.s, c, disks[1..]);
        Chained(s, d.s, DeleteAll(d.s, c, disks[1..]).s, c);
      }
    }
  }

  lemma DeleteDisksContracted(s: State, c: Claim)
    requires Snapshot(s, c) && TearingDown(c)
    requires !IsTrue(c.conditions, StorageClassCreated) && !IsTrue(c.conditions, FileSystemCreated)
    ensures Contracted(s, DeleteDisksStage(s, c).s, c)
    ensures DeleteDisksStage(s, c).out == Continue ==>
      SameWorld(s, DeleteDisksStage(s, c).s) && !IsTrue(c.conditions, LocalDiskCreated)
  {
    if IsTrue(c.conditions, LocalDiskCreated) && !Fails(s) {
      var owned := OwnedDisks(s.world.disks, c.name);
      if owned != [] {
        forall d | d in owned ensures Holds(s.world, c.name, d.name) {
        }
        DeleteAllContracted(Next(s), c, owned);
        DeleteAllStops(Next(s), c, owned);
      } else {
        TrueIsFirst(c.conditions, LocalDiskCreated);
        UpdateContracted(Next(s), c, LocalDiskCreated, False, LocalDiskDeleted, DisksGone);
      }
      Chained(s, Next(s), DeleteDisksStage(s, c).s, c);
    }
  }

  lemma {:induction false} DeleteAllStops(s: State, c: Claim, disks: seq<LocalDisk>)
    ensures DeleteAll(s, c, disks).out != Continue
    decreases |disks|
  {
    if disks != [] {
      DeleteAllStops(DeleteDisk(s, c.name, disks[0]).s, c, disks[1..]);
    }
  }

  lemma TeardownContracted(s: State, c: Claim)
    requires Snapshot(s, c) && TearingDown(c) && UsageChecked(s, c) && LabelChecked(s, c)
    ensures Contracted(s, Teardown(s, c).s, c)
  {
    DeleteClassContracted(s, c);
    var a := DeleteClassStage(s, c);
    if a.out == Continue {
      DeleteFilesystemContracted(a.s, c);
      var b := DeleteFilesystemStage(a.s, c);
      Chained(s, a.s, b.s, c);
      if b.out == Continue {
        DeleteDisksContracted(b.s, c);
        var d := DeleteDisksStage(b.s, c);
        Chained(s, b.s, d.s, c);
        if d.out == Continue {
          var r := RemoveFinalizerStage(d.s, c);
          assert Contracted(d.s, r.s, c);
          Chained(s, d.s, r.s, c);
        }
      }
    }
  }

  // What the checks establish when they let the deletion go on.
  predicate UsageChecked(s: State, c: Claim) {
    IsTrue(c.conditions, StorageClassCreated) ==> !ClassInUse(s.world, c.name)
  }

  predicate LabelChecked(s: State, c: Claim) {
    IsTrue(c.conditions, FileSystemCreated) ==>
      var owned := OwnedFilesystems(s.world.filesystems, c.name);
      |owned| <= 1 && (owned != [] ==> AllowDelete in owned[0].labels)
  }

  lemma MarkContracted(s: State, c: Claim)
    requires Snapshot(s, c) && TearingDown(c)
    ensures Contracted(s, MarkDeletion(s, c).s, c)
    ensures MarkDeletion(s, c).out == Continue ==> SameWorld(s, MarkDeletion(s, c).s)
  {
    UpdateContracted(s, c, Ready, False, DeletionRequested, DeletionNotice);
  }

  lemma UsageContracted(s: State, c: Claim)
    requires Snapshot(s, c) && TearingDown(c)
    ensures Contracted(s, CheckClassUsage(s, c).s, c)
    ensures CheckClassUsage(s, c).out == Continue ==> SameWorld(s, CheckClassUsage(s, c).s) && UsageChecked(s, c)
  {
    if IsTrue(c.conditions, StorageClassCreated) && !Fails(s) {
      var blockers := Blockers(s.world.volumes, c.name);
      if blockers != [] {
        BlockContracted(Next(s), c, StorageClassInUse, InUseMessage(blockers));
        Chained(s, Next(s), CheckClassUsage(s, c).s, c);
      }
    }
  }

  lemma LabelContracted(s: State, c: Claim)
    requires Snapshot(s, c) && TearingDown(c)
    ensures Contracted(s, CheckDeletionLabel(s, c).s, c)
    ensures CheckDeletionLabel(s, c).out == Continue ==> SameWorld(s, CheckDeletionLabel(s, c).s) && LabelChecked(s, c)
  {
    var owned := OwnedFilesystems(s.world.filesystems, c.name);
    if IsTrue(c.conditions, FileSystemCreated) && !Fails(s) && |owned| == 1 && AllowDelete !in owned[0].labels {
      BlockContracted(Next(s), c, FileSystemLabelNotPresent, LabelMissing(owned[0].name));
      Chained(s, Next(s), CheckDeletionLabel(s, c).s, c);
    }
  }

  lemma DeletionContracted(s: State, c: Claim)
    requires Snapshot(s, c) && TearingDown(c)
    ensures Contracted(s, HandleDeletion(s, c).s, c)
  {
    MarkContracted(s, c);
    var m := MarkDeletion(s, c);
    if m.out == Continue {
      UsageContracted(m.s, c);
      var u := CheckClassUsage(m.s, c);
      Chained(s, m.s, u.s, c);
      if u.out == Continue {
        LabelContracted(u.s, c);
        var l := CheckDeletionLabel(u.s, c);
        Chained(s, u.s, l.s, c);
        if l.out == Continue {
          TeardownContracted(l.s, c);
          Chained(s, l.s, Teardown(l.s, c).s, c);
        }
      }
    }
  }

  // ---- the whole reconcile ----

  // Every write of every reconcile is allowed, whichever calls fail, and the log explains
  // the new world.
  lemma ReconcileContracted(s: State, name: string)
    requires WellFormed(s.world)
    ensures name in s.world.claims ==> Contracted(s, Reconcile(s, name).s, s.world.claims[name])
    ensures name !in s.world.claims ==> SameWorld(s, Reconcile(s, name).s)
  {
    if name in s.world.claims && !Fails(s) {
      var c := s.world.claims[name];
      var r := Reconcile(s, name).s;
      var n := Next(s);
      assert Contracted(s, n, c);
      var a := HandleFinalizers(n, c);
      assert Contracted(n, a.s, c);
      if a.out != Continue {
        Chained(s, n, r, c);
      } else if TearingDown(c) {
        DeletionContracted(n, c);
        DeletionNeverIdle(n, c);
        Chained(s, n, r, c);
      } else {
        ProvisionContracted(n, c);
        Chained(s, n, r, c);
      }
    }
  }

  // While the finalizer is present the deletion path always writes, waits or fails: it never
  // lets a claim that is being deleted fall through to the creation path.
  lemma DeletionNeverIdle(s: State, c: Claim)
    requires TearingDown(c)
    ensures HandleDeletion(s, c).out != Continue
  {
  }
}
