/** What one undisturbed reconcile does to a live claim whose disks are there: what it reports about
    disks, filesystem and class, and what it creates or repairs. */
module ProvisioningOutcomes {
  import opened Conditions
  import opened Cluster
  import opened ReconcilerSpec
  import opened ReadySoundness
  import opened WriteContract
  import opened Outcomes
  import opened CreationOutcomes
  import opened Readiness
  import Provisioning

  // ---- later stages leave the conditions of earlier ones alone ----

  predicate SameCondition(s: State, t: State, n: string, kind: ConditionType) {
    && n in s.world.claims && n in t.world.claims
    && Find(t.world.claims[n].conditions, kind) == Find(s.world.claims[n].conditions, kind)
  }

  lemma UpdateKeeps(s: State, c: Claim, kind: ConditionType)
    requires c.name in s.world.claims
    ensures forall k, status, reason, message :: k != kind ==>
      SameCondition(s, UpdateIfChanged(s, c, k, status, reason, message).s, c.name, kind)
  {
    forall k, status, reason, message | k != kind
      ensures SameCondition(s, UpdateIfChanged(s, c, k, status, reason, message).s, c.name, kind)
    {
      UpdatedAllFind(s.world.claims[c.name].conditions, [Condition(k, status, reason, message, s.now)], kind);
    }
  }

  lemma ErrorKeeps(s: State, c: Claim, kind: ConditionType, k: ConditionType, reason: Reason, cause: Cause)
    requires c.name in s.world.claims && k != kind && kind != Ready
    ensures SameCondition(s, CreationError(s, c, k, reason, cause).s, c.name, kind)
  {
    UpdatedAllFind(s.world.claims[c.name].conditions, [
      Condition(k, False, reason, CreationRejected(cause), s.now),
      Condition(Ready, False, ProvisioningFailed, CreationFailed, s.now)], kind);
  }

  lemma FilesystemKeepsDisksCondition(s: State, c: Claim)
    requires s.faults == [] && c.name in s.world.claims
    ensures SameCondition(s, EnsureFilesystem(s, c).s, c.name, LocalDiskCreated)
  {
    var owned := OwnedFilesystems(s.world.filesystems, c.name);
    var spec := BuildSpec(DiskNames(OwnedDisks(s.world.disks, c.name)));
    var made := CreateFilesystem(s, c.name, NewFilesystem(c.name, spec));
    UpdateKeeps(made.s, c, LocalDiskCreated);
    ErrorKeeps(made.s, c, LocalDiskCreated, FileSystemCreated, FileSystemCreationFailed, CreateRejected(c.name));
    ErrorKeeps(s, c, LocalDiskCreated, FileSystemCreated, FileSystemCreationFailed, TooMany(|owned|));
    assert SameCondition(s, MakeFilesystem(s, c, spec).s, c.name, LocalDiskCreated);
  }

  lemma SyncKeepsDisksCondition(s: State, c: Claim)
    requires c.name in s.world.claims
    ensures SameCondition(s, SyncFilesystem(s, c).s, c.name, LocalDiskCreated)
  {
    UpdateKeeps(Next(s), c, LocalDiskCreated);
  }

  lemma MakeClassKeeps(s: State, c: Claim, kind: ConditionType)
    requires c.name in s.world.claims && kind in {LocalDiskCreated, FileSystemCreated}
    ensures SameCondition(s, MakeClass(s, c).s, c.name, kind)
  {
    var made := CreateClass(s, c.name, BuildClass(c.name));
    UpdateKeeps(made.s, c, kind);
    ErrorKeeps(made.s, c, kind, StorageClassCreated, StorageClassCreationFailed, CreateRejected(c.name));
  }

  lemma KeepClassKeeps(s: State, c: Claim, kind: ConditionType)
    requires c.name in s.world.claims && c.name in s.world.classes && kind in {LocalDiskCreated, FileSystemCreated}
    ensures SameCondition(s, KeepClass(s, c).s, c.name, kind)
  {
    UpdateKeeps(s, c, kind);
    UpdateKeeps(PatchClass(s, c.name, BuildClass(c.name)).s, c, kind);
  }

  lemma ClassKeeps(s: State, c: Claim, kind: ConditionType)
    requires c.name in s.world.claims && kind in {LocalDiskCreated, FileSystemCreated}
    ensures SameCondition(s, EnsureClass(s, c).s, c.name, kind)
  {
    MakeClassKeeps(Next(s), c, kind);
    if c.name in s.world.classes {
      KeepClassKeeps(Next(s), c, kind);
    }
  }

  lemma ReadyKeeps(s: State, c: Claim, kind: ConditionType)
    requires c.name in s.world.claims && kind != Ready
    ensures SameCondition(s, SyncReady(s, c).s, c.name, kind)
  {
    UpdateKeeps(s, c, kind);
  }

  lemma SameTwice(s: State, t: State, u: State, n: string, kind: ConditionType)
    requires SameCondition(s, t, n, kind) && SameCondition(t, u, n, kind)
    ensures SameCondition(s, u, n, kind)
  {
  }

  lemma FilesystemCalm(s: State, c: Claim)
    requires s.faults == [] && EnsureFilesystem(s, c).out == Continue
    ensures EnsureFilesystem(s, c) == Step(s, Continue)
  {
  }

  lemma PrepareClassKeeps(s: State, c: Claim)
    requires s.faults == [] && c.name in s.world.claims
    ensures SameCondition(s, PrepareClass(s, c).s, c.name, LocalDiskCreated)
    ensures EnsureFilesystem(s, c) == SyncFilesystem(s, c) == Step(s, Continue) ==>
      SameCondition(s, PrepareClass(s, c).s, c.name, FileSystemCreated)
  {
    var d := EnsureFilesystem(s, c);
    FilesystemKeepsDisksCondition(s, c);
    if d.out == Continue {
      FilesystemCalm(s, c);
      SyncKeepsDisksCondition(s, c);
      var e := SyncFilesystem(s, c).s;
      ClassKeeps(e, c, LocalDiskCreated);
      SameTwice(s, e, EnsureClass(e, c).s, c.name, LocalDiskCreated);
      ClassKeeps(e, c, FileSystemCreated);
    }
  }

  // Once the disks are synced without a write, the rest of the reconcile leaves their condition alone.
  lemma RestKeeps(s: State, c: Claim)
    requires s.faults == [] && Snapshot(s, c) && DisksStand(s.world, c.name) && SyncLocalDisks(s, c) == Step(s, Continue)
    ensures SameCondition(s, Reconcile(s, c.name).s, c.name, LocalDiskCreated)
    ensures EnsureFilesystem(s, c) == SyncFilesystem(s, c) == Step(s, Continue) ==>
      SameCondition(s, Reconcile(s, c.name).s, c.name, FileSystemCreated)
  {
    StandPasses(s, c);
    Provisioning.ProvisionCases(s, c);
    PrepareClassKeeps(s, c);
    var p := PrepareClass(s, c).s;
    ReadyKeeps(p, c, LocalDiskCreated);
    ReadyKeeps(p, c, FileSystemCreated);
  }

  // ---- what is reported about the disks ----

  // The first disk that is not usable decides the verdict.
  lemma {:induction false} FirstBadDisk(disks: seq<LocalDisk>, own: set<string>, i: nat)
    requires i < |disks| && !DiskUsable(disks[i], own) && forall j :: 0 <= j < i ==> DiskUsable(disks[j], own)
    ensures var h := DisksHealth(disks, own); h.Bad? && (h.hard <==> Misused(disks[i], own))
  {
    DiskHealthMeaning(disks[0], own);
    if i > 0 {
      FirstBadDisk(disks[1..], own, i - 1);
    }
  }

  // All the claim's disks are usable.
  predicate AllUsable(w: World, n: string) {
    forall d :: d in w.disks && OwnedBy(d.owners, n) ==> DiskUsable(d, OwnNames(w, n))
  }

  lemma UsableVerdict(w: World, n: string, now: int)
    ensures AllUsable(w, n) <==> Provisioning.Verdict(w, n, now).status == True
  {
    var owned, own := OwnedDisks(w.disks, n), OwnNames(w, n);
    forall d | d in owned ensures DiskHealth(d, own) == Good <==> DiskUsable(d, own) {
      DiskHealthMeaning(d, own);
    }
  }

  lemma VerdictStays(s: State, c: Claim, x: Condition)
    requires s.faults == [] && Snapshot(s, c) && DisksStand(s.world, c.name) && MigratedTrue(c.conditions)
    requires x.kind == LocalDiskCreated
    requires SyncLocalDisks(s, c) == UpdateIfChanged(s, c, x.kind, x.status, x.reason, x.message)
    ensures var r := Reconcile(s, c.name);
      && c.name in r.s.world.claims
      && (Says(r.s.world.claims[c.name].conditions, LocalDiskCreated) <==> x.status == True)
      && (x.status == True || HasReason(r.s.world.claims[c.name].conditions, LocalDiskCreated, x.reason))
  {
    UpdateOutcome(s, c, x.kind, x.status, x.reason, x.message);
    StandPasses(s, c);
    Provisioning.ProvisionCases(s, c);
    var u := UpdateIfChanged(s, c, x.kind, x.status, x.reason, x.message);
    if u.out == Continue {
      RestKeeps(s, c);
    }
  }

  // With disks to look at, an undisturbed reconcile leaves LocalDiskCreated True exactly if all of them
  // are usable; otherwise the first that is not gives the reason: Failed if another filesystem or none
  // uses it, InProgress if it is not ready or has not said whether it is used.
  lemma DisksOutcome(w: World, n: string, pick: nat, now: int)
    requires WellFormed(w) && DisksStand(w, n) && MigratedTrue(w.claims[n].conditions) && OwnedDisks(w.disks, n) != []
    ensures var r := Reconcile(State(w, [], [], pick, now), n);
      && n in r.s.world.claims
      && (Says(r.s.world.claims[n].conditions, LocalDiskCreated) <==> AllUsable(w, n))
      && forall i :: 0 <= i < |OwnedDisks(w.disks, n)| && FirstBad(w, n, i) ==>
           HasReason(r.s.world.claims[n].conditions, LocalDiskCreated,
             if Misused(OwnedDisks(w.disks, n)[i], OwnNames(w, n)) then LocalDiskCreationFailed else LocalDiskCreationInProgress)
  {
    var s, c := State(w, [], [], pick, now), w.claims[n];
    var x := Provisioning.Verdict(w, n, now);
    Provisioning.SyncIsVerdict(s, c);
    UsableVerdict(w, n, now);
    VerdictStays(s, c, x);
    var owned := OwnedDisks(w.disks, n);
    forall i | 0 <= i < |owned| && FirstBad(w, n, i)
      ensures x.status != True
              && x.reason == if Misused(owned[i], OwnNames(w, n)) then LocalDiskCreationFailed else LocalDiskCreationInProgress
    {
      FirstBadDisk(owned, OwnNames(w, n), i);
    }
  }

  predicate FirstBad(w: World, n: string, i: nat)
    requires i < |OwnedDisks(w.disks, n)|
  {
    && !DiskUsable(OwnedDisks(w.disks, n)[i], OwnNames(w, n))
    && forall j :: 0 <= j < i ==> DiskUsable(OwnedDisks(w.disks, n)[j], OwnNames(w, n))
  }

  // Without disks they are on their way, if the devices were validated.
  lemma NoDisksOutcome(w: World, n: string, pick: nat, now: int)
    requires WellFormed(w) && DisksStand(w, n) && MigratedTrue(w.claims[n].conditions)
    requires forall d :: d in w.disks ==> !OwnedBy(d.owners, n)
    ensures var r := Reconcile(State(w, [], [], pick, now), n);
      && n in r.s.world.claims
      && if IsTrue(w.claims[n].conditions, DeviceValidated)
         then !Says(r.s.world.claims[n].conditions, LocalDiskCreated)
              && HasReason(r.s.world.claims[n].conditions, LocalDiskCreated, LocalDiskCreationInProgress)
         else Find(r.s.world.claims[n].conditions, LocalDiskCreated) == Find(w.claims[n].conditions, LocalDiskCreated)
  {
    var s, c := State(w, [], [], pick, now), w.claims[n];
    NoneOwned(w.disks, n);
    if IsTrue(c.conditions, DeviceValidated) {
      VerdictStays(s, c, Condition(LocalDiskCreated, False, LocalDiskCreationInProgress, WaitingForDisks, now));
    } else {
      RestKeeps(s, c);
    }
  }

  lemma NoneOwned(disks: seq<LocalDisk>, n: string)
    ensures OwnedDisks(disks, n) == [] <==> forall d :: d in disks ==> !OwnedBy(d.owners, n)
  {
    if OwnedDisks(disks, n) != [] {
      assert OwnedDisks(disks, n)[0] in OwnedDisks(disks, n);
    }
  }

  // ---- the filesystem ----

  // The disks are verified, and LocalDiskCreated says so for good.
  predicate DisksDone(w: World, n: string) {
    && Live(w, n) && DisksVerified(w, n) && IsTrue(w.claims[n].conditions, LocalDiskCreated)
    && var f := Find(w.claims[n].conditions, LocalDiskCreated);
    && f.Some?
    && (f.value.reason == MigrationComplete ||
        (f.value.reason == LocalDiskCreationSucceeded && f.value.message == AllDisksReady(|OwnedDisks(w.disks, n)|)))
  }

  lemma DisksPass(s: State, c: Claim)
    requires s.faults == [] && Snapshot(s, c) && DisksDone(s.world, c.name)
    ensures DisksStand(s.world, c.name) && SyncLocalDisks(s, c) == Step(s, Continue)
    ensures Reconcile(s, c.name) ==
      if PrepareClass(s, c).out == Continue then SyncReady(PrepareClass(s, c).s, c) else PrepareClass(s, c)
  {
    var x := Provisioning.Verdict(s.world, c.name, s.now);
    Provisioning.SyncIsVerdict(s, c);
    UsableVerdict(s.world, c.name, s.now);
    TrueIsFirst(c.conditions, LocalDiskCreated);
    StandPasses(s, c);
    Provisioning.ProvisionCases(s, c);
  }

  // The specification a filesystem of these disks has.
  function DesiredSpec(w: World, n: string): FilesystemSpec {
    FilesystemSpec("4M", [Pool("system", DiskNames(OwnedDisks(w.disks, n)))], "1-way", "shared",
      SELinuxOptions("s0", "object_r", "container_file_t", "system_u"))
  }

  // The world with another list of filesystems and another status of the claim.
  predicate OnlyFilesystems(w: World, w': World, n: string) {
    n in w.claims && n in w'.claims
    && w' == w.(filesystems := w'.filesystems, claims := w.claims[n := w.claims[n].(conditions := w'.claims[n].conditions)])
  }

  // Without a filesystem one is made of exactly the claim's disks, unless its name is taken.
  lemma FilesystemMissing(w: World, n: string, pick: nat, now: int)
    requires WellFormed(w) && DisksDone(w, n) && MigratedTrue(w.claims[n].conditions)
    requires forall f :: f in w.filesystems ==> !OwnedBy(f.owners, n)
    ensures var r := Reconcile(State(w, [], [], pick, now), n);
      && r.out == Requeue && n in r.s.world.claims
      && if HasFilesystem(w.filesystems, n) then
           OnlyStatus(w, r.s.world, n, {FileSystemCreated, Ready}) && FilesystemFailed(r.s.world.claims[n].conditions)
         else
           && OnlyFilesystems(w, r.s.world, n)
           && r.s.world.filesystems == w.filesystems
                + [Filesystem(n, DesiredSpec(w, n), [OwnerRef(FusionV1Alpha1, FileSystemClaimKind, n)],
                     map[OwnedByName := n, OwnedByNamespace := "ibm-spectrum-scale"], None, false)]
           && !Says(r.s.world.claims[n].conditions, FileSystemCreated)
           && HasReason(r.s.world.claims[n].conditions, FileSystemCreated, FileSystemCreationInProgress)
  {
    var s, c := State(w, [], [], pick, now), w.claims[n];
    DisksPass(s, c);
    NoFilesystem(w.filesystems, n);
    assert PrepareClass(s, c) == EnsureFilesystem(s, c);
    var spec := BuildSpec(DiskNames(OwnedDisks(w.disks, n)));
    assert EnsureFilesystem(s, c) == MakeFilesystem(s, c, spec);
    if HasFilesystem(w.filesystems, n) {
      ErrorOutcome(s, c, CreateRejected(n));
    } else {
      FilesystemMade(s, c, spec);
    }
  }

  lemma FilesystemMade(s: State, c: Claim, spec: FilesystemSpec)
    requires s.faults == [] && Snapshot(s, c) && MigratedTrue(c.conditions) && !HasFilesystem(s.world.filesystems, c.name)
    ensures var r := MakeFilesystem(s, c, spec);
      && r.out == Requeue && OnlyFilesystems(s.world, r.s.world, c.name)
      && r.s.world.filesystems == s.world.filesystems + [NewFilesystem(c.name, spec)]
      && !Says(r.s.world.claims[c.name].conditions, FileSystemCreated)
      && HasReason(r.s.world.claims[c.name].conditions, FileSystemCreated, FileSystemCreationInProgress)
  {
    var made := CreateFilesystem(s, c.name, NewFilesystem(c.name, spec));
    UpdateOutcome(made.s, c, FileSystemCreated, False, FileSystemCreationInProgress, FilesystemCreated);
  }

  predicate FilesystemFailed(cs: seq<Condition>) {
    FalseFor(cs, FileSystemCreated, FileSystemCreationFailed) && FalseFor(cs, Ready, ProvisioningFailed)
  }

  lemma ErrorOutcome(s: State, c: Claim, cause: Cause)
    requires s.faults == [] && c.name in s.world.claims
    ensures var r := CreationError(s, c, FileSystemCreated, FileSystemCreationFailed, cause);
      && r.out == Requeue && OnlyStatus(s.world, r.s.world, c.name, {FileSystemCreated, Ready})
      && FilesystemFailed(r.s.world.claims[c.name].conditions)
  {
    TwoNews(s, c.name, Condition(FileSystemCreated, False, FileSystemCreationFailed, CreationRejected(cause), s.now),
      Condition(Ready, False, ProvisioningFailed, CreationFailed, s.now));
  }

  lemma NoFilesystem(filesystems: seq<Filesystem>, n: string)
    ensures OwnedFilesystems(filesystems, n) == [] <==> forall f :: f in filesystems ==> !OwnedBy(f.owners, n)
  {
    if OwnedFilesystems(filesystems, n) != [] {
      assert OwnedFilesystems(filesystems, n)[0] in OwnedFilesystems(filesystems, n);
    }
  }

  // More than one filesystem is only reported.
  lemma FilesystemsTooMany(w: World, n: string, pick: nat, now: int)
    requires WellFormed(w) && DisksDone(w, n) && |OwnedFilesystems(w.filesystems, n)| > 1
    ensures var r := Reconcile(State(w, [], [], pick, now), n);
      && r.out == Requeue && OnlyStatus(w, r.s.world, n, {FileSystemCreated, Ready})
      && FilesystemFailed(r.s.world.claims[n].conditions)
  {
    var s, c := State(w, [], [], pick, now), w.claims[n];
    DisksPass(s, c);
    assert PrepareClass(s, c) == EnsureFilesystem(s, c);
    ErrorOutcome(s, c, TooMany(|OwnedFilesystems(w.filesystems, n)|));
  }

  // A single filesystem with another specification is given the one of the claim's disks.
  lemma FilesystemRepaired(w: World, n: string, pick: nat, now: int, f: Filesystem)
    requires WellFormed(w) && DisksDone(w, n) && OwnedFilesystems(w.filesystems, n) == [f] && f.spec != DesiredSpec(w, n)
    ensures var r := Reconcile(State(w, [], [], pick, now), n);
      && r.out == Requeue && |r.s.world.filesystems| == |w.filesystems|
      && r.s.world == w.(filesystems := r.s.world.filesystems)
      && forall i :: 0 <= i < |w.filesystems| ==>
           var g := w.filesystems[i];
           r.s.world.filesystems[i] == if g.name == f.name then g.(spec := DesiredSpec(w, n)) else g
  {
    var s, c := State(w, [], [], pick, now), w.claims[n];
    DisksPass(s, c);
    assert PrepareClass(s, c) == EnsureFilesystem(s, c);
  }

  lemma HealthVerdict(s: State, c: Claim, f: Filesystem)
    requires s.faults == [] && IsTrue(c.conditions, LocalDiskCreated) && OwnedFilesystems(s.world.filesystems, c.name) == [f]
    ensures !FilesystemUsable(f) ==> FilesystemHealth(f).Bad?
    ensures SyncFilesystem(s, c) ==
      if FilesystemUsable(f) then UpdateIfChanged(s, c, FileSystemCreated, True, FileSystemCreationSucceeded, FilesystemHealthy)
      else UpdateIfChanged(s, c, FileSystemCreated, False, FileSystemCreationInProgress,
             ResourceProblem(f.name, FilesystemHealth(f).problem))
  {
    FilesystemHealthMeaning(f);
    assert FilesystemsHealth([f]) == FilesystemHealth(f);
  }

  // A single filesystem of the right specification: FileSystemCreated becomes, or stays, True exactly if
  // it reports success and health.
  lemma FilesystemOutcome(w: World, n: string, pick: nat, now: int, f: Filesystem)
    requires WellFormed(w) && DisksDone(w, n) && MigratedTrue(w.claims[n].conditions)
    requires OwnedFilesystems(w.filesystems, n) == [f] && f.spec == DesiredSpec(w, n)
    ensures var r := Reconcile(State(w, [], [], pick, now), n);
      && n in r.s.world.claims && r.s.world.filesystems == w.filesystems
      && (Says(r.s.world.claims[n].conditions, FileSystemCreated) <==> FilesystemUsable(f))
      && (FilesystemUsable(f) || HasReason(r.s.world.claims[n].conditions, FileSystemCreated, FileSystemCreationInProgress))
  {
    var s, c := State(w, [], [], pick, now), w.claims[n];
    DisksPass(s, c);
    HealthVerdict(s, c, f);
    assert EnsureFilesystem(s, c) == Step(s, Continue);
    if FilesystemUsable(f) {
      UpdateOutcome(s, c, FileSystemCreated, True, FileSystemCreationSucceeded, FilesystemHealthy);
    } else {
      UpdateOutcome(s, c, FileSystemCreated, False, FileSystemCreationInProgress, ResourceProblem(f.name, FilesystemHealth(f).problem));
    }
    if SyncFilesystem(s, c).out == Continue {
      RestKeeps(s, c);
      ClassKeepsObjects(s, c);
      StatusOnly(EnsureClass(s, c).s, c);
    }
  }

  // ---- the storage class ----

  // The filesystem is verified, and FileSystemCreated says so for good.
  predicate FilesystemDone(w: World, n: string) {
    && DisksDone(w, n) && FilesystemVerified(w, n) && IsTrue(w.claims[n].conditions, FileSystemCreated)
    && var f := Find(w.claims[n].conditions, FileSystemCreated);
    && f.Some?
    && (f.value.reason == MigrationComplete ||
        (f.value.reason == FileSystemCreationSucceeded && f.value.message == FilesystemHealthy))
  }

  lemma FilesystemPasses(s: State, c: Claim)
    requires s.faults == [] && Snapshot(s, c) && FilesystemDone(s.world, c.name)
    ensures PrepareClass(s, c) == EnsureClass(s, c)
    ensures Reconcile(s, c.name) == if EnsureClass(s, c).out == Continue then SyncReady(EnsureClass(s, c).s, c) else EnsureClass(s, c)
  {
    DisksPass(s, c);
    TrueIsFirst(c.conditions, FileSystemCreated);
    HealthVerdict(s, c, OwnedFilesystems(s.world.filesystems, c.name)[0]);
    assert EnsureFilesystem(s, c) == Step(s, Continue);
    assert SyncFilesystem(s, c) == Step(s, Continue);
  }

  // The class that belongs to the claim.
  function DesiredClass(n: string): StorageClass {
    StorageClass(map["storageclass.kubevirt.io/is-default-virt-class" := "true"],
      map[OwnedByName := n, OwnedByNamespace := "ibm-spectrum-scale"], "spectrumscale.csi.ibm.com",
      Some(true), Some(Delete), Some(Immediate), map["volBackendFs" := n])
  }

  // The class is right and said to be there; nothing but class and status has changed.
  predicate ClassRight(w: World, w': World, n: string) {
    && n in w.claims && n in w'.claims
    && w' == w.(classes := w.classes[n := DesiredClass(n)],
                claims := w.claims[n := w.claims[n].(conditions := w'.claims[n].conditions)])
    && Says(w'.claims[n].conditions, StorageClassCreated)
  }

  // Whether the class is missing, altered or right: after the reconcile it is right, and
  // StorageClassCreated is True.
  lemma ClassOutcome(w: World, n: string, pick: nat, now: int)
    requires WellFormed(w) && FilesystemDone(w, n) && MigratedTrue(w.claims[n].conditions)
    ensures ClassRight(w, Reconcile(State(w, [], [], pick, now), n).s.world, n)
    ensures n in w.classes && w.classes[n] != DesiredClass(n) ==> Reconcile(State(w, [], [], pick, now), n).out == Requeue
  {
    var s, c := State(w, [], [], pick, now), w.claims[n];
    FilesystemPasses(s, c);
    ClassEnsuredOutcome(s, c);
    var e := EnsureClass(s, c);
    if e.out == Continue {
      ReadyKeeps(e.s, c, StorageClassCreated);
      StatusOnly(e.s, c);
      StillRight(w, e.s.world, SyncReady(e.s, c).s.world, n);
    }
  }

  lemma StillRight(w: World, w1: World, w2: World, n: string)
    requires ClassRight(w, w1, n) && n in w2.claims
    requires w2 == w1.(claims := w1.claims[n := w1.claims[n].(conditions := w2.claims[n].conditions)])
    requires Find(w2.claims[n].conditions, StorageClassCreated) == Find(w1.claims[n].conditions, StorageClassCreated)
    ensures ClassRight(w, w2, n)
  {
  }

  lemma StatusOnly(s: State, c: Claim)
    ensures SyncReady(s, c).s.world.filesystems == s.world.filesystems
    ensures c.name in s.world.claims ==> var w, w' := s.world, SyncReady(s, c).s.world;
      c.name in w'.claims
      && w' == w.(claims := w.claims[c.name := w.claims[c.name].(conditions := w'.claims[c.name].conditions)])
  {
    if c.name in s.world.claims {
      assert s.world.claims[c.name := s.world.claims[c.name]] == s.world.claims;
    }
  }

  lemma ClassEnsuredOutcome(s: State, c: Claim)
    requires s.faults == [] && Snapshot(s, c) && MigratedTrue(c.conditions) && IsTrue(c.conditions, FileSystemCreated)
    ensures ClassRight(s.world, EnsureClass(s, c).s.world, c.name)
    ensures c.name in s.world.classes && s.world.classes[c.name] != DesiredClass(c.name) ==> EnsureClass(s, c).out == Requeue
  {
    if c.name !in s.world.classes {
      UpdateOutcome(CreateClass(s, c.name, BuildClass(c.name)).s, c, StorageClassCreated, True, StorageClassCreationSucceeded, ClassCreated);
    } else if s.world.classes[c.name] != BuildClass(c.name) {
      UpdateOutcome(PatchClass(s, c.name, BuildClass(c.name)).s, c, StorageClassCreated, True, StorageClassCreationSucceeded, ClassPresent);
    } else {
      UpdateOutcome(s, c, StorageClassCreated, True, StorageClassCreationSucceeded, ClassPresent);
      assert s.world.classes[c.name := BuildClass(c.name)] == s.world.classes;
    }
  }

  // ---- Ready ----

  // The class is right, and StorageClassCreated says so for good.
  predicate ClassDone(w: World, n: string) {
    && FilesystemDone(w, n) && n in w.classes && w.classes[n] == DesiredClass(n)
    && IsTrue(w.claims[n].conditions, StorageClassCreated)
    && var f := Find(w.claims[n].conditions, StorageClassCreated);
    && f.Some?
    && (f.value.reason == MigrationComplete ||
        (f.value.reason == StorageClassCreationSucceeded && f.value.message == ClassPresent))
  }

  // With everything in place Ready becomes, or stays, True exactly if the devices were validated, and
  // nothing else changes.
  lemma ReadyOutcome(w: World, n: string, pick: nat, now: int)
    requires WellFormed(w) && ClassDone(w, n) && MigratedTrue(w.claims[n].conditions)
    ensures var r := Reconcile(State(w, [], [], pick, now), n);
      && OnlyStatus(w, r.s.world, n, {Ready})
      && (Says(r.s.world.claims[n].conditions, Ready) <==> IsTrue(w.claims[n].conditions, DeviceValidated))
      && (Says(r.s.world.claims[n].conditions, Ready) || HasReason(r.s.world.claims[n].conditions, Ready, ProvisioningInProgress))
  {
    var s, c := State(w, [], [], pick, now), w.claims[n];
    FilesystemPasses(s, c);
    TrueIsFirst(c.conditions, StorageClassCreated);
    assert EnsureClass(s, c) == Step(s, Continue);
    if AllTrue(c.conditions) {
      UpdateOutcome(s, c, Ready, True, ProvisioningSucceeded, AllProvisioned);
    } else {
      UpdateOutcome(s, c, Ready, False, ProvisioningInProgress, StillProvisioning);
    }
  }

  // ---- failing calls ----

  // The resource is reported as failed, and so is Ready; nothing else changes.
  predicate Reported(s: State, r: Step, n: string, kind: ConditionType, reason: Reason) {
    && r.out == Requeue && OnlyStatus(s.world, r.s.world, n, {kind, Ready})
    && FalseFor(r.s.world.claims[n].conditions, kind, reason)
    && FalseFor(r.s.world.claims[n].conditions, Ready, ProvisioningFailed)
  }

  lemma ErrorReported(s: State, t: State, c: Claim, kind: ConditionType, reason: Reason, cause: Cause)
    requires c.name in s.world.claims && kind != Ready && t == s.(faults := [])
    ensures Reported(s, CreationError(t, c, kind, reason, cause), c.name, kind, reason)
  {
    TwoNews(t, c.name, Condition(kind, False, reason, CreationRejected(cause), s.now),
      Condition(Ready, False, ProvisioningFailed, CreationFailed, s.now));
  }

  // The next call fails, and no other.
  predicate OnceFailing(s: State) {
    s.faults == [true]
  }

  // What fails in a creation is reported in the status: the nodes or the discovery result that cannot be
  // read, and the disk, filesystem or class that cannot be made.
  lemma NodesFailureReported(s: State, c: Claim)
    requires OnceFailing(s) && c.name in s.world.claims
    ensures Reported(s, CreateStage(s, c), c.name, LocalDiskCreated, LocalDiskCreationFailed)
  {
    ErrorReported(s, Next(s), c, LocalDiskCreated, LocalDiskCreationFailed, NoStorageNode);
  }

  lemma DiscoveryFailureReported(s: State, c: Claim, node: string, i: nat, created: bool)
    requires OnceFailing(s) && c.name in s.world.claims && i < |c.devices|
    ensures Reported(s, CreateDisks(s, c, node, i, created), c.name, LocalDiskCreated, LocalDiskCreationFailed)
  {
    ErrorReported(s, Next(s), c, LocalDiskCreated, LocalDiskCreationFailed, NoWwn(c.devices[i]));
  }

  lemma DiskFailureReported(s: State, c: Claim, node: string, i: nat, created: bool, wwn: string)
    requires s.faults == [false, false, true] && c.name in s.world.claims && i < |c.devices|
    requires Names(s.world, node, c.devices[i], wwn) && !HasDisk(s.world.disks, wwn)
    ensures Reported(s, CreateDisks(s, c, node, i, created), c.name, LocalDiskCreated, LocalDiskCreationFailed)
  {
    NamesIff(s.world, node, c.devices[i], wwn);
    var made := CreateDisk(Next(Next(s)), c.name, NewDisk(c.name, wwn, c.devices[i], node));
    assert made.s == s.(faults := []);
    ErrorReported(s, made.s, c, LocalDiskCreated, LocalDiskCreationFailed, CreateRejected(wwn));
  }

  lemma FilesystemFailureReported(s: State, c: Claim, spec: FilesystemSpec)
    requires OnceFailing(s) && c.name in s.world.claims
    ensures Reported(s, MakeFilesystem(s, c, spec), c.name, FileSystemCreated, FileSystemCreationFailed)
  {
    ErrorReported(s, Next(s), c, FileSystemCreated, FileSystemCreationFailed, CreateRejected(c.name));
  }

  lemma ClassFailureReported(s: State, c: Claim)
    requires OnceFailing(s) && c.name in s.world.claims
    ensures Reported(s, MakeClass(s, c), c.name, StorageClassCreated, StorageClassCreationFailed)
  {
    ErrorReported(s, Next(s), c, StorageClassCreated, StorageClassCreationFailed, CreateRejected(c.name));
  }
}
