/** What one undisturbed reconcile does to a live claim, phase by phase, told by the fields of the
    objects it finds. */
module CreationOutcomes {
  import opened Conditions
  import opened Cluster
  import opened ReconcilerSpec
  import opened ReadySoundness
  import opened WriteContract
  import opened Runs
  import opened Outcomes
  import opened Readiness
  import ClaimLife
  import Provisioning

  // ---- validation ----

  predicate Live(w: World, n: string) {
    n in w.claims && w.claims[n].finalizer && !w.claims[n].deleting
  }

  // The finalizer comes first.
  lemma FinalizerOutcome(w: World, n: string, pick: nat, now: int)
    requires n in w.claims && w.claims[n].name == n && !w.claims[n].finalizer && !w.claims[n].deleting
    ensures var r := Reconcile(State(w, [], [], pick, now), n);
      r.out == Requeue && r.s.world == w.(claims := w.claims[n := w.claims[n].(finalizer := true)])
  {
  }

  // No disks yet, none on their way, and the devices not validated.
  predicate AwaitsValidation(w: World, n: string) {
    && Live(w, n) && var cs := w.claims[n].conditions;
    && !IsTrue(cs, LocalDiskCreated) && !HasReason(cs, LocalDiskCreated, LocalDiskCreationInProgress)
    && !IsTrue(cs, DeviceValidated) && !HasReason(cs, DeviceValidated, MigrationComplete)
  }

  // An undisturbed validation accepts the devices exactly if there is a storage node and the
  // discovery result of each has an entry for every device; otherwise it says so. Nothing else changes.
  lemma ValidationOutcome(w: World, n: string, pick: nat, now: int)
    requires WellFormed(w) && AwaitsValidation(w, n)
    ensures var r := Reconcile(State(w, [], [], pick, now), n); var cs := r.s.world.claims[n].conditions;
      && r.out == Requeue && OnlyStatus(w, r.s.world, n, {DeviceValidated, Ready})
      && (IsTrue(cs, DeviceValidated) <==>
            && (exists x :: x in w.nodes && x.worker && x.storage)
            && (forall x :: x in w.nodes && x.worker && x.storage ==>
                  x.name in w.discovery
                  && forall p :: p in w.claims[n].devices ==> exists d :: d in w.discovery[x.name] && d.path == p))
      && if IsTrue(cs, DeviceValidated) then Find(cs, Ready) == Find(w.claims[n].conditions, Ready)
         else FalseFor(cs, DeviceValidated, DeviceValidationFailed) && FalseFor(cs, Ready, ValidationFailed)
  {
    var s, c := State(w, [], [], pick, now), w.claims[n];
    Provisioning.Live(s, c);
    assert Reconcile(s, n) == ValidateStage(s, c);
    ValidatesIff(s, c);
    if Validate(s, c).ok {
      TrueIsFirst(c.conditions, DeviceValidated);
      OneNews(s, c, Condition(DeviceValidated, True, DeviceValidationSucceeded, DevicesValid, now));
    } else {
      var x := Condition(Ready, False, ValidationFailed, DevicesInvalid, now);
      var y := Condition(DeviceValidated, False, DeviceValidationFailed, DevicesInvalid, now);
      TwoNews(s, n, x, y);
      UpdatedAllUnique(c.conditions, [x, y]);
      TrueIsFirst(UpdatedAll(c.conditions, [x, y]), DeviceValidated);
    }
  }

  // Over whole runs, whatever calls fail: DeviceValidated is written True only where there is a storage
  // node and the discovery result of each has an entry for every device of the claim.
  lemma ValidatedDevicesExist(w: World, moves: seq<Move>, e: Entry, x: Condition)
    requires WellFormed(w) && Run(w, moves) && e in Trace(w, moves)
    requires e.action.WroteStatus? && x in e.action.news && x.kind == DeviceValidated && x.status == True
    ensures var u := e.before;
      && e.action.claim in u.claims
      && (exists y :: y in u.nodes && y.worker && y.storage)
      && (forall y :: y in u.nodes && y.worker && y.storage ==>
            y.name in u.discovery
            && forall p :: p in u.claims[e.action.claim].devices ==> exists d :: d in u.discovery[y.name] && d.path == p)
  {
    var c := SnapshotDevices(w, moves, e);
    assert DevicesFound(e.before, c.devices);
  }

  // A reconcile does not change the devices of its claim.
  lemma {:induction false} ReplayKeepsDevices(w: World, writes: seq<Entry>, w': World, c: Claim, e: Entry)
    requires Replay(w, writes, w') && AllAllowed(writes, c) && e in writes
    requires c.name in w.claims ==> w.claims[c.name].devices == c.devices
    ensures c.name in e.before.claims && e.before.claims[c.name].devices == c.devices
    decreases |writes|
  {
    assert Allowed(e, c);
    if e != writes[0] {
      assert Allowed(writes[0], c);
      ReplayKeepsDevices(Effect(w, writes[0].action), writes[1..], w', c, e);
    }
  }

  // Every write was allowed for a snapshot that has the devices of the stored claim.
  lemma {:induction false} SnapshotDevices(w: World, moves: seq<Move>, e: Entry) returns (c: Claim)
    requires WellFormed(w) && Run(w, moves) && e in Trace(w, moves)
    ensures Allowed(e, c) && c.devices == e.before.claims[c.name].devices
    decreases |moves|
  {
    ClaimLife.StepAllowed(w, moves[0]);
    if e in StepLog(w, moves[0]) {
      c := w.claims[moves[0].claim];
      StepContracted(w, moves[0]);
      ReplayKeepsDevices(w, StepLog(w, moves[0]), StepWorld(w, moves[0]), c, e);
    } else {
      StepKeepsForm(w, moves[0]);
      c := SnapshotDevices(StepWorld(w, moves[0]), moves[1..], e);
    }
  }

  // ---- creation of disks ----

  // The devices are validated, and no disks are there or on their way.
  predicate AwaitsCreation(w: World, n: string) {
    && Live(w, n) && var cs := w.claims[n].conditions;
    && !IsTrue(cs, LocalDiskCreated) && !HasReason(cs, LocalDiskCreated, LocalDiskCreationInProgress)
    && IsTrue(cs, DeviceValidated)
  }

  // The first entry for the device on the node gives a WWN that can name a disk.
  predicate Names(w: World, node: string, device: string, wwn: string) {
    node in w.discovery && FirstFound(w.discovery[node], device, wwn) && LegalName(wwn)
  }

  ghost predicate CanName(w: World, node: string, device: string) {
    exists wwn :: Names(w, node, device, wwn)
  }

  lemma {:induction false} FoundIsFirstWwn(found: seq<DiscoveredDevice>, device: string, wwn: string)
    requires FirstFound(found, device, wwn) && wwn != ""
    ensures FirstWwn(found, device) == Some(wwn)
  {
    var i :| 0 <= i < |found| && found[i] == DiscoveredDevice(device, wwn) && forall j :: 0 <= j < i ==> found[j].path != device;
    if i > 0 {
      assert found[1..][i - 1] == DiscoveredDevice(device, wwn);
      assert forall j :: 0 <= j < i - 1 ==> found[1..][j].path == found[j + 1].path;
      FoundIsFirstWwn(found[1..], device, wwn);
    }
  }

  lemma NamesIff(w: World, node: string, device: string, wwn: string)
    ensures Names(w, node, device, wwn) <==> DeviceWwn(w, node, device) == Some(wwn) && ValidName(wwn)
  {
    ValidNameIsLegal(wwn);
    if Names(w, node, device, wwn) {
      FoundIsFirstWwn(w.discovery[node], device, wwn);
    }
    if DeviceWwn(w, node, device) == Some(wwn) {
      FirstWwnFound(w.discovery[node], device);
    }
  }

  // Where a pass from the i-th device on ends after making these disks: past the last device, at a
  // device that cannot name a disk, or at a disk that is there already.
  ghost predicate PassEnds(w: World, c: Claim, node: string, i: nat, made: seq<LocalDisk>, failed: bool)
    requires i <= |c.devices|
  {
    && i + |made| <= |c.devices|
    && (forall j :: 0 <= j < |made| ==> made[j].device == c.devices[i + j] && made[j].node == node && DiskFor(w, c, made[j]))
    && (failed <==> i + |made| < |c.devices| && !CanName(w, node, c.devices[i + |made|]))
    && (!failed && i + |made| < |c.devices| ==>
          exists wwn :: Names(w, node, c.devices[i + |made|], wwn) && HasDisk(w.disks + made, wwn))
  }

  // A status with the disks reported as failed.
  predicate DisksFailed(cs: seq<Condition>) {
    FalseFor(cs, LocalDiskCreated, LocalDiskCreationFailed) && FalseFor(cs, Ready, ProvisioningFailed)
  }

  lemma DiskErrorOutcome(s: State, c: Claim, cause: Cause)
    requires s.faults == [] && c.name in s.world.claims
    ensures var r := DiskError(s, c, cause);
      && r.out == Requeue && r.s.faults == [] && OnlyStatus(s.world, r.s.world, c.name, {LocalDiskCreated, Ready})
      && DisksFailed(r.s.world.claims[c.name].conditions)
  {
    TwoNews(s, c.name, Condition(LocalDiskCreated, False, LocalDiskCreationFailed, CreationRejected(cause), s.now),
      Condition(Ready, False, ProvisioningFailed, CreationFailed, s.now));
  }

  // The world with more disks and another status of the claim.
  predicate OnlyDisks(w: World, w': World, n: string, made: seq<LocalDisk>) {
    n in w.claims && n in w'.claims
    && w' == w.(disks := w.disks + made,
                claims := w.claims[n := w.claims[n].(conditions := w'.claims[n].conditions)])
  }

  lemma OnlyDisksTwice(w: World, w1: World, w2: World, n: string, d: LocalDisk, made: seq<LocalDisk>)
    requires OnlyDisks(w, w1, n, [d]) && OnlyDisks(w1, w2, n, made)
    ensures OnlyDisks(w, w2, n, [d] + made)
  {
    assert w.disks + [d] + made == w.disks + ([d] + made);
  }

  lemma DiskNotedOutcome(s: State, c: Claim, d: LocalDisk)
    requires s.faults == [] && c.name in s.world.claims && !HasDisk(s.world.disks, d.name)
    requires !HasReason(c.conditions, LocalDiskCreated, LocalDiskCreationInProgress)
    ensures var made := CreateDisk(s, c.name, d);
      var noted := UpdateIfChanged(made.s, c, LocalDiskCreated, False, LocalDiskCreationInProgress, DisksCreated);
      && made.ok && noted.out == Requeue && noted.s.faults == [] && OnlyDisks(s.world, noted.s.world, c.name, [d])
  {
  }

  lemma SamePlaces(w: World, w1: World, c: Claim, d: LocalDisk)
    requires w1.nodes == w.nodes && w1.discovery == w.discovery
    ensures DiskFor(w1, c, d) <==> DiskFor(w, c, d)
  {
  }

  lemma SameNames(w: World, w1: World, node: string, device: string)
    requires w1.discovery == w.discovery
    ensures forall wwn :: Names(w1, node, device, wwn) <==> Names(w, node, device, wwn)
    ensures CanName(w1, node, device) <==> CanName(w, node, device)
  {
    assert forall wwn :: Names(w1, node, device, wwn) <==> Names(w, node, device, wwn);
  }

  lemma PassEndsLater(w: World, w1: World, c: Claim, node: string, i: nat, d: LocalDisk, made: seq<LocalDisk>, failed: bool)
    requires i < |c.devices| && OnlyDisks(w, w1, c.name, [d]) && PassEnds(w1, c, node, i + 1, made, failed)
    requires d.device == c.devices[i] && d.node == node && DiskFor(w, c, d)
    ensures PassEnds(w, c, node, i, [d] + made, failed)
  {
    var all := [d] + made;
    assert w1.disks + made == w.disks + all && all[1..] == made;
    forall j | 0 <= j < |all| ensures all[j].device == c.devices[i + j] && all[j].node == node && DiskFor(w, c, all[j]) {
      if j > 0 {
        assert all[j] == made[j - 1];
        SamePlaces(w, w1, c, made[j - 1]);
      }
    }
    if i + |all| < |c.devices| {
      SameNames(w, w1, node, c.devices[i + |all|]);
    }
  }

  lemma NobodyNames(w: World, node: string, device: string)
    requires var wwn := DeviceWwn(w, node, device); wwn.Some? ==> !ValidName(wwn.value)
    ensures !CanName(w, node, device)
  {
    forall wwn ensures !Names(w, node, device, wwn) {
      NamesIff(w, node, device, wwn);
    }
  }

  lemma LoopFails(s: State, c: Claim, node: string, i: nat, created: bool)
    requires s.faults == [] && c.name in s.world.claims && i < |c.devices|
    requires var wwn := DeviceWwn(s.world, node, c.devices[i]); wwn.Some? ==> !ValidName(wwn.value)
    ensures var r := CreateDisks(s, c, node, i, created);
      && r.s.faults == [] && OnlyDisks(s.world, r.s.world, c.name, [])
      && r.out == Requeue && DisksFailed(r.s.world.claims[c.name].conditions)
    ensures PassEnds(s.world, c, node, i, [], true)
  {
    var wwn := DeviceWwn(s.world, node, c.devices[i]);
    NobodyNames(s.world, node, c.devices[i]);
    DiskErrorOutcome(s, c, if wwn.None? then NoWwn(c.devices[i]) else BadName(wwn.value));
    assert s.world.disks + [] == s.world.disks;
  }

  lemma LoopStops(s: State, c: Claim, node: string, i: nat, created: bool, wwn: string)
    requires s.faults == [] && c.name in s.world.claims && i < |c.devices|
    requires DeviceWwn(s.world, node, c.devices[i]) == Some(wwn) && ValidName(wwn) && HasDisk(s.world.disks, wwn)
    ensures CreateDisks(s, c, node, i, created) == Step(s, Continue)
    ensures PassEnds(s.world, c, node, i, [], false)
  {
    NamesIff(s.world, node, c.devices[i], wwn);
    assert s.world.disks + [] == s.world.disks;
    assert Names(s.world, node, c.devices[i], wwn) && HasDisk(s.world.disks + [], wwn);
  }

  lemma LoopCreates(s: State, c: Claim, node: string, i: nat, created: bool, wwn: string) returns (noted: Step)
    requires s.faults == [] && c.name in s.world.claims && i < |c.devices|
    requires DeviceWwn(s.world, node, c.devices[i]) == Some(wwn) && ValidName(wwn) && !HasDisk(s.world.disks, wwn)
    requires !HasReason(c.conditions, LocalDiskCreated, LocalDiskCreationInProgress)
    ensures CreateDisks(s, c, node, i, created) == CreateDisks(noted.s, c, node, i + 1, true)
    ensures noted.s.faults == [] && OnlyDisks(s.world, noted.s.world, c.name, [NewDisk(c.name, wwn, c.devices[i], node)])
  {
    var d := NewDisk(c.name, wwn, c.devices[i], node);
    DiskNotedOutcome(s, c, d);
    noted := UpdateIfChanged(CreateDisk(s, c.name, d).s, c, LocalDiskCreated, False, LocalDiskCreationInProgress, DisksCreated);
  }

  lemma {:induction false} CreationLoop(s: State, c: Claim, node: string, i: nat, created: bool)
    returns (made: seq<LocalDisk>, failed: bool)
    requires s.faults == [] && c.name in s.world.claims && i <= |c.devices| && node in StorageNodes(s.world.nodes)
    requires !HasReason(c.conditions, LocalDiskCreated, LocalDiskCreationInProgress)
    ensures var r := CreateDisks(s, c, node, i, created);
      && r.s.faults == [] && OnlyDisks(s.world, r.s.world, c.name, made)
      && PassEnds(s.world, c, node, i, made, failed)
      && (failed ==> r.out == Requeue && DisksFailed(r.s.world.claims[c.name].conditions))
      && (!failed ==> r.out == if i + |made| == |c.devices| && (created || made != []) then Requeue else Continue)
    decreases |c.devices| - i
  {
    made, failed := [], false;
    assert s.world.disks + [] == s.world.disks;
    assert s.world.claims[c.name := s.world.claims[c.name]] == s.world.claims;
    if i < |c.devices| {
      var wwn := DeviceWwn(s.world, node, c.devices[i]);
      if wwn.None? || !ValidName(wwn.value) {
        failed := true;
        LoopFails(s, c, node, i, created);
      } else if HasDisk(s.world.disks, wwn.value) {
        LoopStops(s, c, node, i, created, wwn.value);
      } else {
        var d := NewDisk(c.name, wwn.value, c.devices[i], node);
        NewDiskIsFor(s.world, c, node, c.devices[i], wwn.value);
        var noted := LoopCreates(s, c, node, i, created, wwn.value);
        made, failed := CreationLoop(noted.s, c, node, i + 1, true);
        OnlyDisksTwice(s.world, noted.s.world, CreateDisks(noted.s, c, node, i + 1, true).s.world, c.name, d, made);
        PassEndsLater(s.world, noted.s.world, c, node, i, d, made, failed);
        made := [d] + made;
      }
    }
  }

  // The stages after the disk stage make no disks.
  lemma StatusKeepsDisks(s: State, c: Claim)
    ensures forall kind, status, reason, message ::
      UpdateIfChanged(s, c, kind, status, reason, message).s.world.disks == s.world.disks
  {
  }

  lemma SyncKeepsDisks(s: State, c: Claim)
    ensures SyncLocalDisks(s, c).s.world.disks == s.world.disks
  {
    StatusKeepsDisks(Next(s), c);
    StatusKeepsDisks(Next(Next(s)), c);
  }

  lemma MakingKeepsDisks(s: State, c: Claim, spec: FilesystemSpec)
    ensures MakeFilesystem(s, c, spec).s.world.disks == s.world.disks
  {
    var made := CreateFilesystem(s, c.name, NewFilesystem(c.name, spec));
    StatusKeepsDisks(made.s, c);
    ErrorKeepsDisks(made.s, c, FileSystemCreated, FileSystemCreationFailed, CreateRejected(c.name));
  }

  lemma FilesystemKeepsDisks(s: State, c: Claim)
    ensures EnsureFilesystem(s, c).s.world.disks == s.world.disks
  {
    var s2, owned := Next(Next(s)), OwnedFilesystems(s.world.filesystems, c.name);
    var names := DiskNames(OwnedDisks(s.world.disks, c.name));
    if IsTrue(c.conditions, LocalDiskCreated) && !Fails(s) && names != [] && !Fails(Next(s)) {
      if |owned| == 0 {
        assert EnsureFilesystem(s, c) == MakeFilesystem(s2, c, BuildSpec(names));
        MakingKeepsDisks(s2, c, BuildSpec(names));
      } else if |owned| == 1 {
        PatchKeepsDisks(s2, c.name, owned[0].name, BuildSpec(names));
      } else {
        assert EnsureFilesystem(s, c) == CreationError(s2, c, FileSystemCreated, FileSystemCreationFailed, TooMany(|owned|));
        ErrorKeepsDisks(s2, c, FileSystemCreated, FileSystemCreationFailed, TooMany(|owned|));
      }
    } else {
      FilesystemIdle(s, c);
    }
  }

  lemma FilesystemIdle(s: State, c: Claim)
    requires !IsTrue(c.conditions, LocalDiskCreated) || Fails(s) || OwnedDisks(s.world.disks, c.name) == [] || Fails(Next(s))
    ensures EnsureFilesystem(s, c).s.world == s.world
  {
  }

  lemma ErrorKeepsDisks(s: State, c: Claim, kind: ConditionType, reason: Reason, cause: Cause)
    ensures CreationError(s, c, kind, reason, cause).s.world.disks == s.world.disks
  {
  }

  lemma PatchKeepsDisks(s: State, claim: string, name: string, spec: FilesystemSpec)
    ensures PatchFilesystem(s, claim, name, spec).s.world.disks == s.world.disks
  {
  }

  lemma FilesystemSyncKeepsDisks(s: State, c: Claim)
    ensures SyncFilesystem(s, c).s.world.disks == s.world.disks
  {
    StatusKeepsDisks(Next(s), c);
  }

  lemma MakingClassKeepsObjects(s: State, c: Claim)
    ensures var t := MakeClass(s, c).s.world; t.disks == s.world.disks && t.filesystems == s.world.filesystems
  {
    var made := CreateClass(s, c.name, BuildClass(c.name));
    StatusKeepsDisks(made.s, c);
    ErrorKeepsDisks(made.s, c, StorageClassCreated, StorageClassCreationFailed, CreateRejected(c.name));
  }

  lemma KeepingClassKeepsObjects(s: State, c: Claim)
    requires c.name in s.world.classes
    ensures var t := KeepClass(s, c).s.world; t.disks == s.world.disks && t.filesystems == s.world.filesystems
  {
  }

  lemma ClassKeepsObjects(s: State, c: Claim)
    ensures var t := EnsureClass(s, c).s.world; t.disks == s.world.disks && t.filesystems == s.world.filesystems
  {
    MakingClassKeepsObjects(Next(s), c);
    if c.name in s.world.classes {
      KeepingClassKeepsObjects(Next(s), c);
    }
  }

  lemma RestKeepsDisks(s: State, c: Claim)
    requires EnsureLocalDisks(s, c).out == Continue
    ensures Provision(s, c).s.world.disks == EnsureLocalDisks(s, c).s.world.disks
  {
    var a := EnsureLocalDisks(s, c).s;
    var b := SyncLocalDisks(a, c).s;
    var d := EnsureFilesystem(b, c).s;
    SyncKeepsDisks(a, c);
    FilesystemKeepsDisks(b, c);
    FilesystemSyncKeepsDisks(d, c);
    ClassKeepsObjects(SyncFilesystem(d, c).s, c);
  }

  lemma ReconcileKeepsDisks(s: State, c: Claim)
    requires Reconcile(s, c.name) == Provision(s, c)
    ensures Reconcile(s, c.name).s.world.disks == EnsureLocalDisks(s, c).s.world.disks
    ensures EnsureLocalDisks(s, c).out == Requeue ==> Reconcile(s, c.name) == EnsureLocalDisks(s, c)
  {
    if EnsureLocalDisks(s, c).out == Continue {
      RestKeepsDisks(s, c);
    }
  }

  // An undisturbed creation makes disks on one storage node, device by device, each named by the WWN of
  // the first entry for its device there. It stops at the first device that cannot name a disk, and
  // reports that, or at the first whose disk is there already. Without a storage node it only reports.
  lemma CreationOutcome(w: World, n: string, pick: nat, now: int)
    returns (node: string, made: seq<LocalDisk>, failed: bool)
    requires WellFormed(w) && AwaitsCreation(w, n)
    ensures var r := Reconcile(State(w, [], [], pick, now), n);
      && (failed ==> r.out == Requeue && n in r.s.world.claims && DisksFailed(r.s.world.claims[n].conditions))
      && r.s.world.disks == w.disks + made
      && if exists x :: x in w.nodes && x.worker && x.storage then
           && (exists x :: x in w.nodes && x.worker && x.storage && x.name == node)
           && PassEnds(w, w.claims[n], node, 0, made, failed)
           && (failed ==> OnlyDisks(w, r.s.world, n, made))
         else failed && made == [] && OnlyStatus(w, r.s.world, n, {LocalDiskCreated, Ready})
  {
    var s, c := State(w, [], [], pick, now), w.claims[n];
    var nodes := StorageNodes(w.nodes);
    Provisioning.Live(s, c);
    assert EnsureLocalDisks(s, c) == CreateStage(s, c);
    SomeNode(w);
    ReconcileKeepsDisks(s, c);
    if nodes == [] {
      node, made, failed := "", [], true;
      DiskErrorOutcome(s, c, NoStorageNode);
      assert w.disks + [] == w.disks;
    } else {
      node, made, failed := StageOutcome(s, c);
    }
  }

  lemma StageOutcome(s: State, c: Claim) returns (node: string, made: seq<LocalDisk>, failed: bool)
    requires s.faults == [] && Snapshot(s, c) && StorageNodes(s.world.nodes) != []
    requires !HasReason(c.conditions, LocalDiskCreated, LocalDiskCreationInProgress)
    ensures var r := CreateStage(s, c);
      && OnlyDisks(s.world, r.s.world, c.name, made) && PassEnds(s.world, c, node, 0, made, failed)
      && (failed ==> r.out == Requeue && DisksFailed(r.s.world.claims[c.name].conditions))
    ensures exists x :: x in s.world.nodes && x.worker && x.storage && x.name == node
  {
    node := Picked(StorageNodes(s.world.nodes), s.pick);
    assert node in StorageNodes(s.world.nodes);
    made, failed := CreationLoop(s, c, node, 0, false);
  }

  lemma SomeNode(w: World)
    ensures StorageNodes(w.nodes) != [] <==> exists x :: x in w.nodes && x.worker && x.storage
  {
    if StorageNodes(w.nodes) != [] {
      assert StorageNodes(w.nodes)[0] in StorageNodes(w.nodes);
    }
    if x :| x in w.nodes && x.worker && x.storage {
      assert x.name in StorageNodes(w.nodes);
    }
  }

  // ---- the health of the disks ----

  // The disk stage passes: the disks are on their way, or they are those of the devices.
  predicate DisksStand(w: World, n: string) {
    && Live(w, n) && var c := w.claims[n];
    if IsTrue(c.conditions, LocalDiskCreated) then DeviceSet(OwnedDisks(w.disks, n)) == ToSet(c.devices)
    else HasReason(c.conditions, LocalDiskCreated, LocalDiskCreationInProgress)
  }

  lemma StandPasses(s: State, c: Claim)
    requires s.faults == [] && Snapshot(s, c) && DisksStand(s.world, c.name)
    ensures EnsureLocalDisks(s, c) == Step(s, Continue) && Reconcile(s, c.name) == Provision(s, c)
  {
    Provisioning.Live(s, c);
  }

  // A claim whose disks are said to be there although they are not those of its devices: that is all
  // it reports.
  lemma MismatchOutcome(w: World, n: string, pick: nat, now: int)
    requires WellFormed(w) && Live(w, n) && IsTrue(w.claims[n].conditions, LocalDiskCreated)
    requires (exists p :: p in w.claims[n].devices && forall d :: d in w.disks && OwnedBy(d.owners, n) ==> d.device != p)
             || (exists d :: d in w.disks && OwnedBy(d.owners, n) && d.device != "" && d.device !in w.claims[n].devices)
    ensures var r := Reconcile(State(w, [], [], pick, now), n);
      && r.out == Requeue && OnlyStatus(w, r.s.world, n, {Ready})
      && FalseFor(r.s.world.claims[n].conditions, Ready, ImmutableFieldModified)
  {
    var s, c := State(w, [], [], pick, now), w.claims[n];
    var owned := OwnedDisks(w.disks, n);
    if p :| p in c.devices && forall d :: d in w.disks && OwnedBy(d.owners, n) ==> d.device != p {
      assert p in ToSet(c.devices) && p !in DeviceSet(owned);
    } else {
      var d :| d in w.disks && OwnedBy(d.owners, n) && d.device != "" && d.device !in c.devices;
      assert d in owned && d.device in DeviceSet(owned);
    }
    Provisioning.Live(s, c);
    assert EnsureLocalDisks(s, c) == CheckDevices(s, c);
    OneNews(s, c, Condition(Ready, False, ImmutableFieldModified, DevicesModified(DeviceSet(owned), c.devices), now));
  }

  // ---- updates ----

  // An update leaves the claim with the status that is wanted.
  lemma UpdateOutcome(s: State, c: Claim, kind: ConditionType, status: Status, reason: Reason, message: Message)
    requires s.faults == [] && Snapshot(s, c) && MigratedTrue(c.conditions)
    ensures var u := UpdateIfChanged(s, c, kind, status, reason, message); var cs := u.s.world.claims[c.name].conditions;
      && (u.out == Requeue || u == Step(s, Continue)) && u.s.faults == []
      && OnlyStatus(s.world, u.s.world, c.name, {kind})
      && (Says(cs, kind) <==> status == True)
      && (status == True || HasReason(cs, kind, reason))
      && (u.out == Continue ==> Settled(c, kind, status, reason, message))
  {
    if Settled(c, kind, status, reason, message) {
      assert s.world.claims[c.name := c] == s.world.claims;
      assert status == True ==> Find(c.conditions, kind).value in c.conditions;
    } else {
      OneNews(s, c, Condition(kind, status, reason, message, s.now));
    }
  }
}
