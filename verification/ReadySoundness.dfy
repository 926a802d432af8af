/** Ready is sound and complete, and a Filesystem is only ever written for verified disks. */
module ReadySoundness {
  import opened Conditions
  import opened Cluster
  import opened ReconcilerSpec

  // ---- what the conditions are supposed to stand for ----

  // The first condition of the type is True.
  predicate Says(conditions: seq<Condition>, kind: ConditionType) {
    var f := Find(conditions, kind);
    f.Some? && f.value.status == True
  }

  // Ready, and if in use, in use by one of the claim's own filesystems.
  predicate DiskUsable(d: LocalDisk, own: set<string>) {
    && d.conditions.Some?
    && Says(d.conditions.value, Ready)
    && Find(d.conditions.value, Used).Some?
    && (Says(d.conditions.value, Used) ==> d.filesystem != "" && d.filesystem in own)
  }

  predicate FilesystemUsable(f: Filesystem) {
    && f.conditions.Some?
    && Says(f.conditions.value, Success)
    && Says(f.conditions.value, Healthy)
  }

  function OwnNames(w: World, claim: string): set<string> {
    {claim} + FilesystemNames(OwnedFilesystems(w.filesystems, claim))
  }

  // The owned disks are exactly those of the claim's devices, there are some, and all are usable.
  predicate DisksVerified(w: World, claim: string) {
    && claim in w.claims
    && DeviceSet(OwnedDisks(w.disks, claim)) == ToSet(w.claims[claim].devices)
    && OwnedDisks(w.disks, claim) != []
    && (forall d :: d in OwnedDisks(w.disks, claim) ==> DiskUsable(d, OwnNames(w, claim)))
  }

  // One filesystem, whose single pool lists exactly the owned disks, usable.
  predicate FilesystemVerified(w: World, claim: string) {
    var owned := OwnedFilesystems(w.filesystems, claim);
    && |owned| == 1
    && owned[0].spec == BuildSpec(DiskNames(OwnedDisks(w.disks, claim)))
    && FilesystemUsable(owned[0])
  }

  predicate Provisioned(w: World, claim: string) {
    && DisksVerified(w, claim)
    && FilesystemVerified(w, claim)
    && claim in w.classes && w.classes[claim] == BuildClass(claim)
  }

  lemma DiskHealthMeaning(d: LocalDisk, own: set<string>)
    ensures DiskHealth(d, own) == Good <==> DiskUsable(d, own)
  {
  }

  lemma FilesystemHealthMeaning(f: Filesystem)
    ensures FilesystemHealth(f) == Good <==> FilesystemUsable(f)
  {
  }

  // ---- the stages, when they let the reconcile go on ----

  // The snapshot is the stored claim, live and with one condition per type.
  predicate Snapshot(s: State, c: Claim) {
    && c.name in s.world.claims && s.world.claims[c.name] == c
    && Unique(c.conditions)
  }

  predicate SameWorld(s: State, t: State) {
    t.world == s.world && t.log == s.log && t.now == s.now && t.pick == s.pick
  }

  lemma DisksChecked(s: State, c: Claim)
    requires Snapshot(s, c) && IsTrue(c.conditions, LocalDiskCreated)
    requires EnsureLocalDisks(s, c).out == Continue
    ensures SameWorld(s, EnsureLocalDisks(s, c).s)
    ensures DeviceSet(OwnedDisks(s.world.disks, c.name)) == ToSet(c.devices)
  {
  }

  // A verdict that leaves a True LocalDiskCreated alone is a good one.
  lemma GoodVerdict(s: State, c: Claim, owned: seq<LocalDisk>, own: set<string>)
    requires Unique(c.conditions) && IsTrue(c.conditions, LocalDiskCreated)
    requires DisksVerdict(s, c, owned, own).out == Continue
    ensures DisksHealth(owned, own) == Good && DisksVerdict(s, c, owned, own).s == s
  {
    TrueIsFirst(c.conditions, LocalDiskCreated);
  }

  // If LocalDiskCreated is True and needs no update, the observed disks are usable.
  lemma DisksObserved(s: State, c: Claim)
    requires Snapshot(s, c) && IsTrue(c.conditions, LocalDiskCreated)
    requires SyncLocalDisks(s, c).out == Continue
    ensures SameWorld(s, SyncLocalDisks(s, c).s)
    ensures OwnedDisks(s.world.disks, c.name) == [] ==> !IsTrue(c.conditions, DeviceValidated)
    ensures forall d :: d in OwnedDisks(s.world.disks, c.name) ==> DiskUsable(d, OwnNames(s.world, c.name))
  {
    var owned := OwnedDisks(s.world.disks, c.name);
    if owned == [] {
      TrueIsFirst(c.conditions, LocalDiskCreated);
    } else {
      var listed := if Fails(Next(s)) then {} else FilesystemNames(OwnedFilesystems(s.world.filesystems, c.name));
      GoodVerdict(Next(Next(s)), c, owned, {c.name} + listed);
      forall d | d in owned ensures DiskUsable(d, OwnNames(s.world, c.name)) {
        DiskHealthMeaning(d, {c.name} + listed);
      }
    }
  }

  // The checks before the filesystem stage together: this is the gate for writing a filesystem.
  lemma DisksGate(s: State, c: Claim)
    requires Snapshot(s, c) && IsTrue(c.conditions, LocalDiskCreated)
    requires EnsureLocalDisks(s, c).out == Continue
    requires SyncLocalDisks(EnsureLocalDisks(s, c).s, c).out == Continue
    ensures SameWorld(s, SyncLocalDisks(EnsureLocalDisks(s, c).s, c).s)
    ensures OwnedDisks(s.world.disks, c.name) == [] ==> !IsTrue(c.conditions, DeviceValidated)
    ensures OwnedDisks(s.world.disks, c.name) != [] ==> DisksVerified(s.world, c.name)
  {
    DisksChecked(s, c);
    DisksObserved(EnsureLocalDisks(s, c).s, c);
  }

  lemma FilesystemEnsured(s: State, c: Claim)
    requires EnsureFilesystem(s, c).out == Continue
    ensures SameWorld(s, EnsureFilesystem(s, c).s)
    ensures IsTrue(c.conditions, LocalDiskCreated) && OwnedDisks(s.world.disks, c.name) != [] ==>
      var owned := OwnedFilesystems(s.world.filesystems, c.name);
      |owned| == 1 && owned[0].spec == BuildSpec(DiskNames(OwnedDisks(s.world.disks, c.name)))
  {
  }

  lemma FilesystemObserved(s: State, c: Claim)
    requires Unique(c.conditions)
    requires SyncFilesystem(s, c).out == Continue
    ensures SameWorld(s, SyncFilesystem(s, c).s)
    ensures IsTrue(c.conditions, LocalDiskCreated) && IsTrue(c.conditions, FileSystemCreated) ==>
      forall f :: f in OwnedFilesystems(s.world.filesystems, c.name) ==> FilesystemUsable(f)
  {
    TrueIsFirst(c.conditions, FileSystemCreated);
    if IsTrue(c.conditions, LocalDiskCreated) && IsTrue(c.conditions, FileSystemCreated) {
      var owned := OwnedFilesystems(s.world.filesystems, c.name);
      if owned != [] {
        assert FilesystemsHealth(owned) == Good;
      }
      forall f | f in owned ensures FilesystemUsable(f) {
        FilesystemHealthMeaning(f);
      }
    }
  }

  // The class may have been created in this very reconcile: only the result is as desired.
  lemma ClassEnsured(s: State, c: Claim)
    requires EnsureClass(s, c).out == Continue
    ensures var t := EnsureClass(s, c).s; t.world == s.world.(classes := t.world.classes) && t.now == s.now
    ensures IsTrue(c.conditions, FileSystemCreated) ==>
      var t := EnsureClass(s, c).s;
      c.name in t.world.classes && t.world.classes[c.name] == BuildClass(c.name)
  {
  }

  lemma PrepareFrame(s: State, c: Claim)
    requires Snapshot(s, c) && IsTrue(c.conditions, LocalDiskCreated)
    requires Prepare(s, c).out == Continue
    ensures var t := Prepare(s, c).s; t.world == s.world.(classes := t.world.classes) && t.now == s.now
  {
    DisksGate(s, c);
    var b := SyncLocalDisks(EnsureLocalDisks(s, c).s, c).s;
    FilesystemEnsured(b, c);
    FilesystemObserved(EnsureFilesystem(b, c).s, c);
    ClassEnsured(SyncFilesystem(EnsureFilesystem(b, c).s, c).s, c);
  }

  // If the reconcile gets as far as the aggregate with all four conditions True, everything
  // the claim stands for is really there.
  lemma AggregateSound(s: State, c: Claim)
    requires Snapshot(s, c) && AllTrue(c.conditions)
    requires Prepare(s, c).out == Continue
    ensures Provisioned(Prepare(s, c).s.world, c.name)
  {
    PrepareFrame(s, c);
    DisksGate(s, c);
    var b := SyncLocalDisks(EnsureLocalDisks(s, c).s, c).s;
    FilesystemEnsured(b, c);
    var d := EnsureFilesystem(b, c).s;
    FilesystemObserved(d, c);
    var e := SyncFilesystem(d, c).s;
    ClassEnsured(e, c);
    var w := Prepare(s, c).s.world;
    assert w.disks == s.world.disks && w.filesystems == s.world.filesystems && w.claims == s.world.claims;
    assert DisksVerified(w, c.name);
    var owned := OwnedFilesystems(w.filesystems, c.name);
    assert owned[0] in owned;
  }

}
