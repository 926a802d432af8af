/** What an undisturbed reconcile of a claim on its way to Ready does, whatever the health of its
    resources: it keeps the claim on its way and, if all is healthy, brings it one write nearer. */
module Provisioning {
  import opened Conditions
  import opened Cluster
  import opened ReconcilerSpec
  import opened ReadySoundness
  import opened Creation

  // ---- conditions ----

  predicate Has(conditions: seq<Condition>, kind: ConditionType, status: Status, reason: Reason, message: Message) {
    var f := Find(conditions, kind);
    f.Some? && f.value.status == status && f.value.reason == reason && f.value.message == message
  }

  predicate Lacks(conditions: seq<Condition>, kind: ConditionType) {
    Find(conditions, kind) == None
  }

  // If True, it is so for this reason; the migration has not written it.
  predicate Regular(conditions: seq<Condition>, kind: ConditionType, reason: Reason, message: Message) {
    var f := Find(conditions, kind);
    f.Some? ==>
      f.value.reason != MigrationComplete
      && (f.value.status == True ==> f.value.reason == reason && f.value.message == message)
  }

  predicate DisksReported(cs: seq<Condition>, count: nat) {
    Has(cs, LocalDiskCreated, True, LocalDiskCreationSucceeded, AllDisksReady(count))
  }

  predicate FilesystemReported(cs: seq<Condition>) {
    Has(cs, FileSystemCreated, True, FileSystemCreationSucceeded, FilesystemHealthy)
  }

  predicate ClassReported(cs: seq<Condition>) {
    Has(cs, StorageClassCreated, True, StorageClassCreationSucceeded, ClassPresent)
  }

  predicate ReadyReported(cs: seq<Condition>) {
    Has(cs, Ready, True, ProvisioningSucceeded, AllProvisioned)
  }

  // ---- claims that can be provisioned ----

  // The devices are distinct, discovered on every storage node and have usable, unique WWNs.
  predicate Suitable(w: World, devices: seq<string>) {
    && devices != [] && Distinct(devices) && "" !in devices
    && AllDiscovered(w, devices)
    && forall node :: node in StorageNodes(w.nodes) ==> Named(w, devices, node)
  }

  // No disk has the WWN of one of the devices.
  predicate AllFree(w: World, devices: seq<string>) {
    forall node :: node in StorageNodes(w.nodes) ==> Named(w, devices, node) && NamesFree(w, devices, node, 0)
  }

  // The storage nodes agree on the WWN of the first device, and the claim owns the disk named so.
  predicate FirstPresent(w: World, n: string) {
    n in w.claims && w.claims[n].devices != [] &&
    forall node :: node in StorageNodes(w.nodes) ==>
      exists d :: d in OwnedDisks(w.disks, n) && DeviceWwn(w, node, w.claims[n].devices[0]) == Some(d.name)
  }

  predicate Base(w: World, n: string) {
    WellFormed(w) && n in w.claims && !w.claims[n].deleting && Suitable(w, w.claims[n].devices)
  }

  // Nothing is there yet: `k` is 9 without the finalizer, 8 before and 7 after the validation.
  predicate Early(w: World, n: string, k: nat)
    requires n in w.claims
  {
    var c := w.claims[n];
    && 7 <= k <= 9 && c.finalizer == (k < 9)
    && (if k == 7 then Has(c.conditions, DeviceValidated, True, DeviceValidationSucceeded, DevicesValid)
        else Lacks(c.conditions, DeviceValidated))
    && Lacks(c.conditions, LocalDiskCreated) && Lacks(c.conditions, FileSystemCreated)
    && Lacks(c.conditions, StorageClassCreated) && Lacks(c.conditions, Ready)
    && OwnedDisks(w.disks, n) == [] && AllFree(w, c.devices)
    && OwnedFilesystems(w.filesystems, n) == [] && !HasFilesystem(w.filesystems, n) && n !in w.classes
  }

  predicate DisksBuilt(w: World, n: string)
    requires n in w.claims
  {
    var c, owned := w.claims[n], OwnedDisks(w.disks, n);
    && owned != [] && DeviceSet(owned) == ToSet(c.devices)
    && !Lacks(c.conditions, LocalDiskCreated)
    && Regular(c.conditions, LocalDiskCreated, LocalDiskCreationSucceeded, AllDisksReady(|owned|))
  }

  // The creation of disks is not entered again, or finds the first one there.
  predicate Steady(w: World, n: string)
    requires n in w.claims
  {
    || FirstPresent(w, n)
    || Says(w.claims[n].conditions, LocalDiskCreated)
    || HasReason(w.claims[n].conditions, LocalDiskCreated, LocalDiskCreationInProgress)
  }

  predicate FilesystemBuilt(w: World, n: string)
    requires n in w.claims
  {
    var cs, owned := w.claims[n].conditions, OwnedFilesystems(w.filesystems, n);
    if owned == [] then !HasFilesystem(w.filesystems, n) && Lacks(cs, FileSystemCreated)
    else
      |owned| == 1 && owned[0].spec == BuildSpec(DiskNames(OwnedDisks(w.disks, n)))
      && Regular(cs, FileSystemCreated, FileSystemCreationSucceeded, FilesystemHealthy)
  }

  predicate ClassBuilt(w: World, n: string)
    requires n in w.claims
  {
    var cs := w.claims[n].conditions;
    if n !in w.classes then Lacks(cs, StorageClassCreated)
    else
      w.classes[n] == BuildClass(n)
      && (ClassReported(cs) || Has(cs, StorageClassCreated, True, StorageClassCreationSucceeded, ClassCreated))
  }

  // The disks are there; filesystem, class and the reports follow.
  predicate Built(w: World, n: string)
    requires n in w.claims
  {
    var cs := w.claims[n].conditions;
    && w.claims[n].finalizer
    && Has(cs, DeviceValidated, True, DeviceValidationSucceeded, DevicesValid)
    && DisksBuilt(w, n) && Steady(w, n) && FilesystemBuilt(w, n) && ClassBuilt(w, n)
    && Regular(cs, Ready, ProvisioningSucceeded, AllProvisioned)
  }

  predicate AllHealthy(w: World, n: string) {
    && (forall d :: d in OwnedDisks(w.disks, n) ==> DiskUsable(d, {n}))
    && (forall f :: f in OwnedFilesystems(w.filesystems, n) ==> FilesystemUsable(f))
  }

  function Bit(done: bool): nat {
    if done then 0 else 1
  }

  // The writes left for a claim whose disks are there, if all is healthy.
  function Left(w: World, n: string): nat
    requires n in w.claims
  {
    var cs := w.claims[n].conditions;
    Bit(DisksReported(cs, |OwnedDisks(w.disks, n)|))
    + Bit(OwnedFilesystems(w.filesystems, n) != []) + Bit(FilesystemReported(cs))
    + Bit(n in w.classes) + Bit(ClassReported(cs))
    + Bit(ReadyReported(cs))
  }

  // On its way to Ready, `k` writes away if all is healthy.
  predicate Track(w: World, n: string, k: nat) {
    && Base(w, n)
    && if k > 6 then Early(w, n, k) else Built(w, n) && Left(w, n) == k
  }

  // ---- what a reconcile writes ----

  function Noted(w: World, n: string, x: Condition): World
    requires n in w.claims
  {
    w.(claims := w.claims[n := w.claims[n].(conditions := Updated(w.claims[n].conditions, x))])
  }

  function WithFilesystem(w: World, n: string): World {
    w.(filesystems := w.filesystems + [NewFilesystem(n, BuildSpec(DiskNames(OwnedDisks(w.disks, n))))])
  }

  function WithClass(w: World, n: string): World {
    w.(classes := w.classes[n := BuildClass(n)])
  }

  function DisksNews(count: nat, now: int): Condition {
    Condition(LocalDiskCreated, True, LocalDiskCreationSucceeded, AllDisksReady(count), now)
  }

  function FilesystemMadeNews(now: int): Condition {
    Condition(FileSystemCreated, False, FileSystemCreationInProgress, FilesystemCreated, now)
  }

  function FilesystemNews(now: int): Condition {
    Condition(FileSystemCreated, True, FileSystemCreationSucceeded, FilesystemHealthy, now)
  }

  function ClassMadeNews(now: int): Condition {
    Condition(StorageClassCreated, True, StorageClassCreationSucceeded, ClassCreated, now)
  }

  function ClassNews(now: int): Condition {
    Condition(StorageClassCreated, True, StorageClassCreationSucceeded, ClassPresent, now)
  }

  function ReadyNews(now: int): Condition {
    Condition(Ready, True, ProvisioningSucceeded, AllProvisioned, now)
  }

  // A report that keeps the claim on its way.
  predicate Report(w: World, n: string, x: Condition)
    requires n in w.claims
  {
    && x.reason != MigrationComplete
    && match x.kind
       case LocalDiskCreated =>
         if x.status == True then x == DisksNews(|OwnedDisks(w.disks, n)|, x.since)
         else x.reason == LocalDiskCreationInProgress || FirstPresent(w, n)
       case FileSystemCreated =>
         OwnedFilesystems(w.filesystems, n) != [] && (x.status == True ==> x == FilesystemNews(x.since))
       case StorageClassCreated => n in w.classes && x == ClassNews(x.since)
       case Ready => x.status == True ==> x == ReadyNews(x.since)
       case _ => false
  }

  // The reconcile leaves the world alone, reports, or makes the filesystem or the class.
  predicate Leads(w: World, n: string, t: World, x: Condition)
    requires n in w.claims
  {
    || t == w
    || (Report(w, n, x) && t == Noted(w, n, x))
    || (OwnedFilesystems(w.filesystems, n) == [] && x == FilesystemMadeNews(x.since) && t == WithFilesystem(Noted(w, n, x), n))
    || (n !in w.classes && OwnedFilesystems(w.filesystems, n) != [] && x == ClassMadeNews(x.since)
        && t == WithClass(Noted(w, n, x), n))
  }

  // ---- single updates ----

  // A condition that is not as wanted is updated.
  lemma Updates(s: State, c: Claim, x: Condition)
    requires s.faults == [] && c.name in s.world.claims && x.since == s.now
    requires !Settled(c, x.kind, x.status, x.reason, x.message)
    ensures var u := UpdateIfChanged(s, c, x.kind, x.status, x.reason, x.message);
      u.out == Requeue && u.s.faults == [] && u.s.world == Noted(s.world, c.name, x)
  {
    var cs := s.world.claims[c.name].conditions;
    assert UpdatedAll(cs, [x]) == Updated(cs, x) by {
      assert [x][1..] == [];
      assert UpdatedAll(Updated(cs, x), []) == Updated(cs, x);
    }
  }

  // A regular condition is as wanted exactly if it says so.
  lemma RegularSettled(c: Claim, kind: ConditionType, reason: Reason, message: Message)
    requires Regular(c.conditions, kind, reason, message)
    ensures Settled(c, kind, True, reason, message) <==> Has(c.conditions, kind, True, reason, message)
    ensures Says(c.conditions, kind) <==> Has(c.conditions, kind, True, reason, message)
  {
  }

  // ---- disks ----

  // The snapshot of an undisturbed reconcile of a claim whose disks are there.
  predicate Taken(s: State, c: Claim) {
    && s.faults == [] && c.name in s.world.claims && s.world.claims[c.name] == c
    && Base(s.world, c.name) && Built(s.world, c.name)
  }

  // The claim is live and has its finalizer: the reconcile is the creation path.
  lemma Live(s: State, c: Claim)
    requires s.faults == [] && c.name in s.world.claims && s.world.claims[c.name] == c && !c.deleting && c.finalizer
    ensures Reconcile(s, c.name) == Provision(s, c)
  {
    assert HandleFinalizers(s, c) == Step(s, Continue);
    assert HandleDeletion(s, c) == Step(s, Continue);
  }

  lemma CreationStopsAtFirst(s: State, c: Claim, node: string)
    requires s.faults == [] && c.devices != [] && Named(s.world, c.devices, node)
    requires exists d :: d in s.world.disks && DeviceWwn(s.world, node, c.devices[0]) == Some(d.name)
    ensures CreateDisks(s, c, node, 0, false) == Step(s, Continue)
  {
    assert c.devices[0] in c.devices;
    var d :| d in s.world.disks && DeviceWwn(s.world, node, c.devices[0]) == Some(d.name);
    assert HasDisk(s.world.disks, d.name);
  }

  lemma CreationStops(s: State, c: Claim)
    requires s.faults == [] && c.name in s.world.claims && s.world.claims[c.name] == c
    requires Suitable(s.world, c.devices) && FirstPresent(s.world, c.name)
    ensures CreateStage(s, c) == Step(s, Continue)
  {
    var node := Picked(StorageNodes(s.world.nodes), s.pick);
    assert node in StorageNodes(s.world.nodes);
    var d :| d in OwnedDisks(s.world.disks, c.name) && DeviceWwn(s.world, node, c.devices[0]) == Some(d.name);
    CreationStopsAtFirst(s, c, node);
  }

  lemma DisksStand(s: State, c: Claim)
    requires Taken(s, c)
    ensures EnsureLocalDisks(s, c) == Step(s, Continue)
  {
    TrueIsFirst(c.conditions, LocalDiskCreated);
    TrueIsFirst(c.conditions, DeviceValidated);
    if !Says(c.conditions, LocalDiskCreated) && !HasReason(c.conditions, LocalDiskCreated, LocalDiskCreationInProgress) {
      CreationStops(s, c);
    }
  }

  // What the sync of the disks reports.
  function Verdict(w: World, n: string, now: int): Condition {
    match DisksHealth(OwnedDisks(w.disks, n), OwnNames(w, n))
    case Good => DisksNews(|OwnedDisks(w.disks, n)|, now)
    case Bad(resource, problem, hard) =>
      Condition(LocalDiskCreated, False, if hard then LocalDiskCreationFailed else LocalDiskCreationInProgress,
        ResourceProblem(resource, problem), now)
  }

  lemma SyncIsVerdict(s: State, c: Claim)
    requires s.faults == [] && OwnedDisks(s.world.disks, c.name) != []
    ensures var x := Verdict(s.world, c.name, s.now);
      SyncLocalDisks(s, c) == UpdateIfChanged(s, c, x.kind, x.status, x.reason, x.message)
  {
  }

  lemma HealthyVerdict(w: World, n: string, now: int)
    requires AllHealthy(w, n)
    ensures Verdict(w, n, now) == DisksNews(|OwnedDisks(w.disks, n)|, now)
  {
    var owned, own := OwnedDisks(w.disks, n), OwnNames(w, n);
    forall d | d in owned ensures DiskHealth(d, own) == Good {
      DiskHealthMeaning(d, own);
    }
    assert DisksHealth(owned, own) == Good;
  }

  lemma VerdictReports(w: World, n: string, now: int)
    requires n in w.claims && (FirstPresent(w, n) || AllHealthy(w, n))
    ensures Report(w, n, Verdict(w, n, now))
  {
    if !FirstPresent(w, n) {
      HealthyVerdict(w, n, now);
    }
  }

  lemma SyncReports(s: State, c: Claim)
    requires s.faults == [] && c.name in s.world.claims && OwnedDisks(s.world.disks, c.name) != []
    ensures var x, r := Verdict(s.world, c.name, s.now), SyncLocalDisks(s, c);
      r == Step(s, Continue) || (r.out == Requeue && r.s.world == Noted(s.world, c.name, x))
  {
    var x := Verdict(s.world, c.name, s.now);
    SyncIsVerdict(s, c);
    if !Settled(c, x.kind, x.status, x.reason, x.message) {
      Updates(s, c, x);
    }
  }

  // ---- filesystem ----

  lemma FilesystemMade(s: State, c: Claim)
    requires s.faults == [] && c.name in s.world.claims && IsTrue(c.conditions, LocalDiskCreated)
    requires OwnedDisks(s.world.disks, c.name) != [] && OwnedFilesystems(s.world.filesystems, c.name) == []
    requires !HasFilesystem(s.world.filesystems, c.name) && Lacks(c.conditions, FileSystemCreated)
    ensures EnsureFilesystem(s, c).out == Requeue
    ensures EnsureFilesystem(s, c).s.world == WithFilesystem(Noted(s.world, c.name, FilesystemMadeNews(s.now)), c.name)
  {
    var f := NewFilesystem(c.name, BuildSpec(DiskNames(OwnedDisks(s.world.disks, c.name))));
    Updates(CreateFilesystem(s, c.name, f).s, c, FilesystemMadeNews(s.now));
    assert EnsureFilesystem(s, c) == MakeFilesystem(s, c, f.spec);
  }

  lemma FilesystemStands(s: State, c: Claim)
    requires s.faults == [] && OwnedDisks(s.world.disks, c.name) != []
    requires var owned := OwnedFilesystems(s.world.filesystems, c.name);
      |owned| == 1 && owned[0].spec == BuildSpec(DiskNames(OwnedDisks(s.world.disks, c.name)))
    ensures EnsureFilesystem(s, c) == Step(s, Continue)
  {
  }

  // What the sync of the filesystem reports.
  function FilesystemVerdict(w: World, n: string, now: int): Condition {
    match FilesystemsHealth(OwnedFilesystems(w.filesystems, n))
    case Good => FilesystemNews(now)
    case Bad(resource, problem, _) =>
      Condition(FileSystemCreated, False, FileSystemCreationInProgress, ResourceProblem(resource, problem), now)
  }

  lemma HealthyFilesystem(w: World, n: string, now: int)
    requires AllHealthy(w, n)
    ensures FilesystemVerdict(w, n, now) == FilesystemNews(now)
  {
    var owned := OwnedFilesystems(w.filesystems, n);
    forall f | f in owned ensures FilesystemHealth(f) == Good {
      FilesystemHealthMeaning(f);
    }
    assert FilesystemsHealth(owned) == Good;
  }

  lemma FilesystemSyncs(s: State, c: Claim)
    requires s.faults == [] && c.name in s.world.claims && IsTrue(c.conditions, LocalDiskCreated)
    requires OwnedFilesystems(s.world.filesystems, c.name) != []
    ensures var x := FilesystemVerdict(s.world, c.name, s.now);
      SyncFilesystem(s, c) == UpdateIfChanged(s, c, x.kind, x.status, x.reason, x.message)
  {
  }

  // ---- class ----

  lemma ClassMade(s: State, c: Claim)
    requires s.faults == [] && c.name in s.world.claims && IsTrue(c.conditions, FileSystemCreated)
    requires c.name !in s.world.classes && Lacks(c.conditions, StorageClassCreated)
    ensures EnsureClass(s, c).out == Requeue
    ensures EnsureClass(s, c).s.world == WithClass(Noted(s.world, c.name, ClassMadeNews(s.now)), c.name)
  {
    Updates(CreateClass(s, c.name, BuildClass(c.name)).s, c, ClassMadeNews(s.now));
    assert EnsureClass(s, c) == MakeClass(s, c);
  }

  lemma ClassStands(s: State, c: Claim)
    requires s.faults == [] && IsTrue(c.conditions, FileSystemCreated)
    requires c.name in s.world.classes && s.world.classes[c.name] == BuildClass(c.name)
    ensures EnsureClass(s, c) == UpdateIfChanged(s, c, StorageClassCreated, True, StorageClassCreationSucceeded, ClassPresent)
  {
  }

  // ---- the stages after the disks ----

  // A stage that stops has led on; one that does not has done nothing.
  predicate StopsOrLeads(s: State, n: string, r: Step, x: Condition)
    requires n in s.world.claims
  {
    r == Step(s, Continue) || (r.out == Requeue && Leads(s.world, n, r.s.world, x))
  }

  lemma FilesystemLeads(s: State, c: Claim) returns (x: Condition)
    requires Taken(s, c)
    ensures StopsOrLeads(s, c.name, EnsureFilesystem(s, c), x)
    ensures OwnedFilesystems(s.world.filesystems, c.name) == [] && IsTrue(c.conditions, LocalDiskCreated) ==>
      EnsureFilesystem(s, c).out == Requeue
  {
    x := FilesystemMadeNews(s.now);
    if IsTrue(c.conditions, LocalDiskCreated) {
      if OwnedFilesystems(s.world.filesystems, c.name) == [] {
        FilesystemMade(s, c);
      } else {
        FilesystemStands(s, c);
      }
    }
  }

  lemma UpdateLeads(s: State, c: Claim, x: Condition)
    requires s.faults == [] && c.name in s.world.claims && x.since == s.now && Report(s.world, c.name, x)
    ensures StopsOrLeads(s, c.name, UpdateIfChanged(s, c, x.kind, x.status, x.reason, x.message), x)
  {
    if !Settled(c, x.kind, x.status, x.reason, x.message) {
      Updates(s, c, x);
    }
  }

  lemma SyncLeads(s: State, c: Claim) returns (x: Condition)
    requires Taken(s, c)
    requires IsTrue(c.conditions, LocalDiskCreated) ==> OwnedFilesystems(s.world.filesystems, c.name) != []
    ensures StopsOrLeads(s, c.name, SyncFilesystem(s, c), x)
  {
    x := FilesystemVerdict(s.world, c.name, s.now);
    if IsTrue(c.conditions, LocalDiskCreated) {
      FilesystemSyncs(s, c);
      UpdateLeads(s, c, x);
    }
  }

  lemma ClassLeads(s: State, c: Claim) returns (x: Condition)
    requires Taken(s, c)
    ensures StopsOrLeads(s, c.name, EnsureClass(s, c), x)
  {
    x := if c.name in s.world.classes then ClassNews(s.now) else ClassMadeNews(s.now);
    TrueIsFirst(c.conditions, FileSystemCreated);
    if IsTrue(c.conditions, FileSystemCreated) {
      if c.name !in s.world.classes {
        ClassMade(s, c);
      } else {
        ClassStands(s, c);
        UpdateLeads(s, c, x);
      }
    }
  }

  lemma ReadyLeads(s: State, c: Claim) returns (x: Condition)
    requires s.faults == [] && c.name in s.world.claims
    ensures StopsOrLeads(s, c.name, SyncReady(s, c), x)
  {
    x := if AllTrue(c.conditions) then ReadyNews(s.now)
         else Condition(Ready, False, ProvisioningInProgress, StillProvisioning, s.now);
    if !Settled(c, x.kind, x.status, x.reason, x.message) {
      Updates(s, c, x);
    }
  }

  lemma PrepareClassCases(s: State, c: Claim)
    ensures EnsureFilesystem(s, c).out == Requeue ==> PrepareClass(s, c) == EnsureFilesystem(s, c)
    ensures EnsureFilesystem(s, c) == Step(s, Continue) ==>
      PrepareClass(s, c) == if SyncFilesystem(s, c).out == Continue then EnsureClass(SyncFilesystem(s, c).s, c) else SyncFilesystem(s, c)
  {
  }

  lemma PrepareClassLeads(s: State, c: Claim) returns (x: Condition)
    requires Taken(s, c)
    ensures StopsOrLeads(s, c.name, PrepareClass(s, c), x)
  {
    PrepareClassCases(s, c);
    x := FilesystemLeads(s, c);
    if EnsureFilesystem(s, c) == Step(s, Continue) {
      x := SyncLeads(s, c);
      if SyncFilesystem(s, c) == Step(s, Continue) {
        x := ClassLeads(s, c);
      }
    }
  }

  // Where the reconcile ends, once the disks stand.
  lemma ProvisionCases(s: State, c: Claim)
    requires s.faults == [] && c.name in s.world.claims && s.world.claims[c.name] == c && !c.deleting && c.finalizer
    requires EnsureLocalDisks(s, c) == Step(s, Continue)
    ensures SyncLocalDisks(s, c).out == Requeue ==> Reconcile(s, c.name) == SyncLocalDisks(s, c)
    ensures SyncLocalDisks(s, c) == Step(s, Continue) ==>
      Reconcile(s, c.name) == if PrepareClass(s, c).out == Continue then SyncReady(PrepareClass(s, c).s, c) else PrepareClass(s, c)
  {
    Live(s, c);
  }

  // An undisturbed reconcile of a claim whose disks are there leads on, whatever is healthy.
  lemma BuiltLeads(s: State, c: Claim) returns (x: Condition)
    requires Taken(s, c) && (FirstPresent(s.world, c.name) || AllHealthy(s.world, c.name))
    ensures StopsOrLeads(s, c.name, Reconcile(s, c.name), x)
  {
    DisksStand(s, c);
    ProvisionCases(s, c);
    SyncReports(s, c);
    VerdictReports(s.world, c.name, s.now);
    x := Verdict(s.world, c.name, s.now);
    if SyncLocalDisks(s, c) == Step(s, Continue) {
      x := PrepareClassLeads(s, c);
      if PrepareClass(s, c) == Step(s, Continue) {
        x := ReadyLeads(s, c);
      }
    }
  }
}
