/** When a claim is reported Ready, and when a Filesystem is written: the two promises of the
    creation path, over every reconcile of every claim, whichever API calls fail. */
module Readiness {
  import opened Conditions
  import opened Cluster
  import opened ReconcilerSpec
  import opened ReadySoundness
  import opened WriteContract

  predicate ReadyTrue(a: Action) {
    a.WroteStatus? && exists x :: x in a.news && x.kind == Ready && x.status == True
  }

  // The stored claim exists and reports Ready.
  predicate ReportsReady(w: World, name: string) {
    name in w.claims && IsTrue(w.claims[name].conditions, Ready)
  }

  // No write of Ready=True is ever made in a world where the claim is not fully provisioned.
  lemma ReadyIsNeverPremature(s: State, name: string)
    requires WellFormed(s.world) && name in s.world.claims
    ensures var t := Reconcile(s, name).s;
      s.log <= t.log && forall e :: e in New(s, t) && ReadyTrue(e.action) ==> Provisioned(e.before, name)
  {
    ReconcileContracted(s, name);
    var t := Reconcile(s, name).s;
    var c := s.world.claims[name];
    forall e | e in New(s, t) && ReadyTrue(e.action) ensures Provisioned(e.before, name) {
      assert Allowed(e, c);
      var x :| x in e.action.news && x.kind == Ready && x.status == True;
      assert !TearingDown(c);
    }
  }

  // A quiet reconcile of a live claim that reports Ready finds everything in place; this covers
  // claims whose conditions were written by the migration.
  lemma QuietReadyIsSound(s: State, name: string)
    requires WellFormed(s.world) && name in s.world.claims && !s.world.claims[name].deleting
    requires Reconcile(s, name).out == Continue
    requires ReportsReady(s.world, name)
    ensures Provisioned(Reconcile(s, name).s.world, name)
  {
    var c := s.world.claims[name];
    LiveReconcile(s, name);
    QuietProvision(Next(s), c);
  }

  // Once the finalizer is in place, a reconcile of a live claim is its creation path.
  lemma LiveReconcile(s: State, name: string)
    requires name in s.world.claims && !s.world.claims[name].deleting
    requires Reconcile(s, name).out == Continue
    ensures Reconcile(s, name) == Provision(Next(s), s.world.claims[name])
  {
    var c := s.world.claims[name];
    var a := HandleFinalizers(Next(s), c);
    assert a.s == Next(s);
    assert HandleDeletion(a.s, c) == Step(a.s, Continue);
  }

  lemma QuietProvision(s: State, c: Claim)
    requires Snapshot(s, c) && IsTrue(c.conditions, Ready) && Provision(s, c).out == Continue
    ensures Provisioned(Provision(s, c).s.world, c.name)
  {
    var p := Prepare(s, c);
    QuietAggregate(p.s, c);
    AggregateSound(s, c);
  }

  lemma QuietAggregate(s: State, c: Claim)
    requires Unique(c.conditions) && IsTrue(c.conditions, Ready) && SyncReady(s, c).out == Continue
    ensures AllTrue(c.conditions) && SyncReady(s, c).s == s
  {
    TrueIsFirst(c.conditions, Ready);
  }

  // Conditions left by the migration are True.
  predicate MigratedTrue(conditions: seq<Condition>) {
    forall c :: c in conditions && c.reason == MigrationComplete ==> c.status == True
  }

  // Conversely, of a reconcile that reaches the aggregate with no failing call in a provisioned
  // world: it has found all four conditions True exactly if the devices were validated, whatever
  // the other conditions were before.
  lemma AggregateComplete(s: State, c: Claim)
    requires Snapshot(s, c) && MigratedTrue(c.conditions) && s.faults == []
    requires Prepare(s, c).out == Continue && Provisioned(Prepare(s, c).s.world, c.name)
    ensures AllTrue(c.conditions) <==> IsTrue(c.conditions, DeviceValidated)
    ensures IsTrue(c.conditions, LocalDiskCreated) && IsTrue(c.conditions, FileSystemCreated)
    ensures IsTrue(c.conditions, StorageClassCreated)
  {
    var b := SyncLocalDisks(EnsureLocalDisks(s, c).s, c);
    DisksTrue(s, c);
    DisksGate(s, c);
    PrepareFrame(s, c);
    SyncKeepsCalls(s, c);
    RestTrue(b.s, c);
  }

  lemma SyncKeepsCalls(s: State, c: Claim)
    requires Snapshot(s, c) && IsTrue(c.conditions, LocalDiskCreated) && s.faults == []
    requires EnsureLocalDisks(s, c).out == Continue && SyncLocalDisks(EnsureLocalDisks(s, c).s, c).out == Continue
    ensures SyncLocalDisks(EnsureLocalDisks(s, c).s, c).s.faults == []
  {
    EnsureDisksKeepsCalls(s, c);
  }

  lemma RestTrue(s: State, c: Claim)
    requires MigratedTrue(c.conditions) && IsTrue(c.conditions, LocalDiskCreated) && s.faults == []
    requires FilesystemVerified(s.world, c.name) && PrepareClass(s, c).out == Continue
    ensures IsTrue(c.conditions, FileSystemCreated) && IsTrue(c.conditions, StorageClassCreated)
  {
    FilesystemTrue(s, c);
    ClassTrue(SyncFilesystem(EnsureFilesystem(s, c).s, c).s, c);
  }

  // A settled condition that is wanted True is True.
  lemma SettledTrue(c: Claim, kind: ConditionType, reason: Reason, message: Message)
    requires MigratedTrue(c.conditions) && Settled(c, kind, True, reason, message)
    ensures IsTrue(c.conditions, kind)
  {
    var f := Find(c.conditions, kind).value;
    assert f in c.conditions && f.kind == kind && f.status == True;
  }

  lemma {:induction false} CreateDisksKeepsCalls(s: State, c: Claim, node: string, i: nat, created: bool)
    requires i <= |c.devices| && s.faults == []
    ensures CreateDisks(s, c, node, i, created).s.faults == []
    decreases |c.devices| - i
  {
    if i < |c.devices| {
      var wwn := DeviceWwn(s.world, node, c.devices[i]);
      if wwn.Some? && ValidName(wwn.value) && !HasDisk(s.world.disks, wwn.value) {
        var made := CreateDisk(s, c.name, NewDisk(c.name, wwn.value, c.devices[i], node));
        var noted := UpdateIfChanged(made.s, c, LocalDiskCreated, False, LocalDiskCreationInProgress, DisksCreated);
        if made.ok && noted.out != Failed {
          CreateDisksKeepsCalls(noted.s, c, node, i + 1, true);
        }
      }
    }
  }

  lemma EnsureDisksKeepsCalls(s: State, c: Claim)
    requires s.faults == [] && EnsureLocalDisks(s, c).out == Continue
    ensures EnsureLocalDisks(s, c).s.faults == []
  {
    var nodes := StorageNodes(s.world.nodes);
    if nodes != [] {
      CreateDisksKeepsCalls(Next(s), c, Picked(nodes, s.pick), 0, false);
    }
  }

  lemma DisksTrue(s: State, c: Claim)
    requires Snapshot(s, c) && MigratedTrue(c.conditions) && s.faults == []
    requires Prepare(s, c).out == Continue && DisksVerified(Prepare(s, c).s.world, c.name)
    ensures IsTrue(c.conditions, LocalDiskCreated)
  {
    if !IsTrue(c.conditions, LocalDiskCreated) {
      var a := EnsureLocalDisks(s, c);
      EnsureDisksKeepsCalls(s, c);
      var b := SyncLocalDisks(a.s, c);
      ClassEnsured(b.s, c);
      DisksSettled(a.s, c);
    }
  }

  lemma DisksSettled(s: State, c: Claim)
    requires MigratedTrue(c.conditions) && s.faults == [] && SyncLocalDisks(s, c).out == Continue
    requires OwnedDisks(s.world.disks, c.name) != []
    requires forall d :: d in OwnedDisks(s.world.disks, c.name) ==> DiskUsable(d, OwnNames(s.world, c.name))
    ensures IsTrue(c.conditions, LocalDiskCreated)
  {
    var owned := OwnedDisks(s.world.disks, c.name);
    forall d | d in owned ensures DiskHealth(d, OwnNames(s.world, c.name)) == Good {
      DiskHealthMeaning(d, OwnNames(s.world, c.name));
    }
    SettledTrue(c, LocalDiskCreated, LocalDiskCreationSucceeded, AllDisksReady(|owned|));
  }

  lemma ClassTrue(s: State, c: Claim)
    requires MigratedTrue(c.conditions) && IsTrue(c.conditions, FileSystemCreated)
    requires EnsureClass(s, c).out == Continue
    ensures IsTrue(c.conditions, StorageClassCreated)
  {
    if c.name in s.world.classes {
      SettledTrue(c, StorageClassCreated, StorageClassCreationSucceeded, ClassPresent);
    } else {
      SettledTrue(c, StorageClassCreated, StorageClassCreationSucceeded, ClassCreated);
    }
  }

  lemma FilesystemTrue(s: State, c: Claim)
    requires MigratedTrue(c.conditions) && IsTrue(c.conditions, LocalDiskCreated) && s.faults == []
    requires FilesystemVerified(s.world, c.name)
    requires EnsureFilesystem(s, c).out == Continue && SyncFilesystem(EnsureFilesystem(s, c).s, c).out == Continue
    ensures IsTrue(c.conditions, FileSystemCreated)
  {
    FilesystemEnsured(s, c);
    var owned := OwnedFilesystems(s.world.filesystems, c.name);
    forall f | f in owned ensures FilesystemHealth(f) == Good {
      FilesystemHealthMeaning(f);
    }
    SettledTrue(c, FileSystemCreated, FileSystemCreationSucceeded, FilesystemHealthy);
  }
}
