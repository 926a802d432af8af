/** What whole migrations promise: a successful run leaves nothing to do, an interrupted run is
    completed by the next one exactly when no group was left half adopted without a legacy
    disk, and a claim created by the migration passes the reconciler's own checks. */
module MigrationProofs {
  import opened Conditions
  import opened Cluster
  import opened ReconcilerSpec
  import opened MigrationSpec

  // ---- idempotence ----

  predicate AllSucceed(w: World, m: Mishaps) {
    forall g :: g in Keys(w.disks) ==> Succeeds(w, g, m)
  }

  lemma AdoptedIsNotLegacy(d: LocalDisk, g: string)
    ensures !IsLegacy(AdoptDisk(d, g))
  {
    assert OwnedBy(AdoptDisk(d, g).owners, g);
  }

  // After a run in which every group succeeded, another run finds no candidate and changes nothing.
  lemma SecondRunIsIdle(w: World, m: Mishaps, m': Mishaps)
    requires AllSucceed(w, m)
    ensures Keys(Migrate(w, m).disks) == {}
    ensures Migrate(Migrate(w, m), m') == Migrate(w, m)
  {
    var w1 := Migrate(w, m);
    forall i | 0 <= i < |w1.disks| ensures !IsLegacy(w1.disks[i]) {
      var d := w.disks[i];
      if IsLegacy(d) {
        assert Succeeds(w, d.filesystem, m);
        assert d in GroupDisks(w.disks, d.filesystem);
        AdoptedIsNotLegacy(d, d.filesystem);
      }
    }
    NothingToDo(w1, m');
  }

  lemma NothingToDo(w: World, m: Mishaps)
    requires Keys(w.disks) == {}
    ensures Migrate(w, m) == w
  {
    assert MigratedDisks(w, {}, m) == w.disks;
    assert MigratedFilesystems(w, {}, m) == w.filesystems;
    assert MigratedClasses(w, {}, m) == w.classes;
    assert MigratedClaims(w, {}, m) == w.claims;
  }

  // A run that crashes with only the groups in `done` processed is a run in which the first
  // call made for each other group fails.
  lemma CrashIsMishap(w: World, done: set<string>, m: Mishaps)
    requires done <= Keys(w.disks)
    ensures MigratedWorld(w, done, m) == Migrate(w, Crashed(w, done, m))
  {
    CrashedDisks(w, done, m);
    CrashedFilesystems(w, done, m);
    CrashedClasses(w, done, m);
    CrashedClaims(w, done, m);
  }

  // The same calls fail, and so does the first call for each group not in `done`.
  function Crashed(w: World, done: set<string>, m: Mishaps): Mishaps {
    m.(claimGets := m.claimGets + (Keys(w.disks) - done))
  }

  lemma CrashedGroup(w: World, done: set<string>, m: Mishaps, g: string)
    requires done <= Keys(w.disks)
    ensures var m' := Crashed(w, done, m);
      && (g in Keys(w.disks) && Claimed(w, g, m') <==> g in done && Claimed(w, g, m))
      && (g in Keys(w.disks) && FilesystemDone(w, g, m') <==> g in done && FilesystemDone(w, g, m))
      && (g in Keys(w.disks) && Succeeds(w, g, m') <==> g in done && Succeeds(w, g, m))
      && NewClaim(w, g, m') == NewClaim(w, g, m)
  {
    ReachedIgnoresOthers(GroupDisks(w.disks, g), m, Crashed(w, done, m));
  }

  lemma CrashedDisks(w: World, done: set<string>, m: Mishaps)
    requires done <= Keys(w.disks)
    ensures MigratedDisks(w, Keys(w.disks), Crashed(w, done, m)) == MigratedDisks(w, done, m)
  {
    var m' := Crashed(w, done, m);
    forall i | 0 <= i < |w.disks|
      ensures AdoptsDisk(w, Keys(w.disks), m', w.disks[i]) <==> AdoptsDisk(w, done, m, w.disks[i])
    {
      CrashedGroup(w, done, m, w.disks[i].filesystem);
      ReachedIgnoresOthers(GroupDisks(w.disks, w.disks[i].filesystem), m, m');
    }
  }

  lemma CrashedFilesystems(w: World, done: set<string>, m: Mishaps)
    requires done <= Keys(w.disks)
    ensures MigratedFilesystems(w, Keys(w.disks), Crashed(w, done, m)) == MigratedFilesystems(w, done, m)
  {
    var m' := Crashed(w, done, m);
    forall i | 0 <= i < |w.filesystems|
      ensures AdoptsFilesystem(w, Keys(w.disks), m', w.filesystems[i]) <==> AdoptsFilesystem(w, done, m, w.filesystems[i])
    {
      CrashedGroup(w, done, m, w.filesystems[i].name);
    }
  }

  lemma CrashedClasses(w: World, done: set<string>, m: Mishaps)
    requires done <= Keys(w.disks)
    ensures MigratedClasses(w, Keys(w.disks), Crashed(w, done, m)) == MigratedClasses(w, done, m)
  {
    forall g | g in w.classes {
      CrashedGroup(w, done, m, g);
    }
  }

  lemma CrashedClaims(w: World, done: set<string>, m: Mishaps)
    requires done <= Keys(w.disks)
    ensures MigratedClaims(w, Keys(w.disks), Crashed(w, done, m)) == MigratedClaims(w, done, m)
  {
    forall g {
      CrashedGroup(w, done, m, g);
    }
  }

  lemma {:induction false} ReachedIgnoresOthers(disks: seq<LocalDisk>, m: Mishaps, m': Mishaps)
    requires m.diskUpdates == m'.diskUpdates
    ensures Reached(disks, m) == Reached(disks, m')
  {
    if disks != [] {
      ReachedIgnoresOthers(disks[1..], m, m');
    }
  }

  // ---- resumption ----

  // Same disks, filesystems and classes, and the same claims up to their status.
  predicate SameOwnership(a: World, b: World) {
    && a.disks == b.disks && a.filesystems == b.filesystems && a.classes == b.classes
    && a.claims.Keys == b.claims.Keys
    && (forall n :: n in a.claims ==> a.claims[n].(conditions := []) == b.claims[n].(conditions := []))
  }

  // After a first run left w1: every group that can be migrated still has a legacy disk, or is finished.
  predicate Resumable(w: World, w1: World) {
    forall g :: g in Keys(w.disks) && Valid(w, g, Calm(0)) ==>
      g in Keys(w1.disks) || (FilesystemOwned(w1, g) && ClassLabelled(w1, g))
  }

  lemma {:induction false} CalmReachesAll(disks: seq<LocalDisk>, now: int)
    ensures Reached(disks, Calm(now)) == disks
  {
    if disks != [] {
      CalmReachesAll(disks[1..], now);
    }
  }

  // With no failing call, a group succeeds exactly when it is valid.
  lemma CalmSucceeds(w: World, g: string, now: int)
    ensures Valid(w, g, Calm(now)) <==> Valid(w, g, Calm(0))
    ensures Claimed(w, g, Calm(now)) <==> Valid(w, g, Calm(0))
    ensures FilesystemDone(w, g, Calm(now)) <==> Valid(w, g, Calm(0))
    ensures Succeeds(w, g, Calm(now)) <==> Valid(w, g, Calm(0))
  {
    CalmReachesAll(GroupDisks(w.disks, g), now);
  }

  lemma FilesystemsKeepNames(w: World, m: Mishaps, g: string)
    ensures HasFilesystem(Migrate(w, m).filesystems, g) <==> HasFilesystem(w.filesystems, g)
  {
    var fs, fs1 := w.filesystems, Migrate(w, m).filesystems;
    assert |fs1| == |fs| && forall i :: 0 <= i < |fs| ==> fs1[i].name == fs[i].name;
    if HasFilesystem(fs, g) {
      var f :| f in fs && f.name == g;
      var i :| 0 <= i < |fs| && fs[i] == f;
      assert fs1[i] in fs1;
    }
    if HasFilesystem(fs1, g) {
      var f :| f in fs1 && f.name == g;
      var i :| 0 <= i < |fs1| && fs1[i] == f;
      assert fs[i] in fs;
    }
  }

  lemma ClassesKeepProvisioner(w: World, m: Mishaps, g: string)
    ensures g in Migrate(w, m).classes <==> g in w.classes
    ensures g in w.classes ==> Migrate(w, m).classes[g].provisioner == w.classes[g].provisioner
  {
  }

  // Validity looks at names and provisioners only, which no run changes.
  lemma ValidityLasts(w: World, m: Mishaps, g: string)
    ensures Valid(Migrate(w, m), g, Calm(0)) <==> Valid(w, g, Calm(0))
    ensures Valid(w, g, m) ==> Valid(w, g, Calm(0))
  {
    FilesystemsKeepNames(w, m, g);
    ClassesKeepProvisioner(w, m, g);
  }

  // The disks always end up adopted as in an uninterrupted run.
  lemma ResumedDisks(w: World, m: Mishaps, now: int, i: nat)
    requires i < |w.disks|
    ensures Migrate(Migrate(w, m), Calm(now)).disks[i] == Migrate(w, Calm(now)).disks[i]
  {
    var d := w.disks[i];
    var w1 := Migrate(w, m);
    var g := d.filesystem;
    CalmSucceeds(w, g, now);
    CalmSucceeds(w1, g, now);
    ValidityLasts(w, m, g);
    CalmReachesAll(GroupDisks(w.disks, g), now);
    CalmReachesAll(GroupDisks(w1.disks, g), now);
    AdoptedIsNotLegacy(d, g);
    assert d in w.disks && w1.disks[i] in w1.disks;
    if IsLegacy(d) {
      assert d in GroupDisks(w.disks, g);
    }
    if IsLegacy(w1.disks[i]) {
      assert w1.disks[i] in GroupDisks(w1.disks, g);
    }
  }

  // A group whose claim was not obtained has none of its disks adopted.
  lemma {:induction false} GroupUntouched(a: seq<LocalDisk>, b: seq<LocalDisk>, g: string)
    requires |a| == |b|
    requires forall i :: 0 <= i < |a| ==> a[i] == b[i] || (a[i].filesystem != g && b[i].filesystem != g)
    ensures GroupDisks(a, g) == GroupDisks(b, g)
  {
    if a != [] {
      GroupUntouched(a[1..], b[1..], g);
    }
  }

  // ... so its group is the same in the next run.
  lemma UnclaimedGroupLasts(w: World, m: Mishaps, g: string)
    requires !Claimed(w, g, m)
    ensures GroupDisks(Migrate(w, m).disks, g) == GroupDisks(w.disks, g)
    ensures g in Keys(w.disks) ==> g in Keys(Migrate(w, m).disks)
  {
    var w1 := Migrate(w, m);
    GroupUntouched(w.disks, w1.disks, g);
    if g in Keys(w.disks) {
      var d :| d in w.disks && IsLegacy(d) && d.filesystem == g;
      assert d in GroupDisks(w1.disks, g);
    }
  }

  // The claim of one group after a run.
  lemma ClaimAfter(w: World, m: Mishaps, g: string)
    ensures var cs := Migrate(w, m).claims;
      && (g in cs <==> g in w.claims || (g in Keys(w.disks) && Claimed(w, g, m)))
      && (g in w.claims ==> cs[g] == w.claims[g])
      && (g in cs && g !in w.claims ==> cs[g] == NewClaim(w, g, m))
  {
  }

  lemma ResumedClaim(w: World, m: Mishaps, now: int, g: string)
    ensures g in Migrate(Migrate(w, m), Calm(now)).claims <==> g in Migrate(w, Calm(now)).claims
    ensures g in Migrate(w, Calm(now)).claims ==>
      Migrate(Migrate(w, m), Calm(now)).claims[g].(conditions := []) == Migrate(w, Calm(now)).claims[g].(conditions := [])
  {
    var w1 := Migrate(w, m);
    CalmSucceeds(w, g, now);
    CalmSucceeds(w1, g, now);
    ValidityLasts(w, m, g);
    LegacyOnlyShrinks(w, m, g);
    ClaimAfter(w, m, g);
    ClaimAfter(w, Calm(now), g);
    ClaimAfter(w1, Calm(now), g);
    if !Claimed(w, g, m) {
      UnclaimedGroupLasts(w, m, g);
    }
  }

  lemma LegacyOnlyShrinks(w: World, m: Mishaps, g: string)
    ensures g in Keys(Migrate(w, m).disks) ==> g in Keys(w.disks)
  {
    var w1 := Migrate(w, m);
    if g in Keys(w1.disks) {
      var e :| e in w1.disks && IsLegacy(e) && e.filesystem == g;
      var i :| 0 <= i < |w1.disks| && w1.disks[i] == e;
      AdoptedIsNotLegacy(w.disks[i], w.disks[i].filesystem);
      assert w.disks[i] == e;
    }
  }

  lemma AdoptedIsOwned(f: Filesystem, g: string)
    ensures HasClaimOwner(AdoptFilesystem(f, g).owners, g)
  {
    var f' := AdoptFilesystem(f, g);
    assert ClaimRef(g) in f'.owners;
  }

  lemma OwnedFilesystemIs(w: World, i: nat)
    requires DistinctFilesystemNames(w.filesystems) && i < |w.filesystems|
    ensures FilesystemOwned(w, w.filesystems[i].name) <==> HasClaimOwner(w.filesystems[i].owners, w.filesystems[i].name)
  {
    var g := w.filesystems[i].name;
    if FilesystemOwned(w, g) {
      var h :| h in w.filesystems && h.name == g && HasClaimOwner(h.owners, g);
      var j :| 0 <= j < |w.filesystems| && w.filesystems[j] == h;
      if i < j {
      } else if j < i {
      }
    }
  }

  lemma NamesLast(w: World, m: Mishaps)
    requires DistinctFilesystemNames(w.filesystems)
    ensures DistinctFilesystemNames(Migrate(w, m).filesystems)
  {
    var fs := Migrate(w, m).filesystems;
    forall i, j | 0 <= i < j < |fs| ensures fs[i].name != fs[j].name {
      assert fs[i].name == w.filesystems[i].name && fs[j].name == w.filesystems[j].name;
    }
  }

  // A filesystem ends up as in an uninterrupted run unless its group is stranded.
  lemma ResumedFilesystem(w: World, m: Mishaps, now: int, i: nat)
    requires DistinctFilesystemNames(w.filesystems) && i < |w.filesystems|
    ensures var g, w1 := w.filesystems[i].name, Migrate(w, m);
      Migrate(w1, Calm(now)).filesystems[i] == Migrate(w, Calm(now)).filesystems[i]
      <==> !(g in Keys(w.disks) && Valid(w, g, Calm(0)) && g !in Keys(w1.disks) && !FilesystemOwned(w1, g))
  {
    var f, w1 := w.filesystems[i], Migrate(w, m);
    var g := f.name;
    CalmSucceeds(w, g, now);
    CalmSucceeds(w1, g, now);
    ValidityLasts(w, m, g);
    LegacyOnlyShrinks(w, m, g);
    AdoptedIsOwned(f, g);
    NamesLast(w, m);
    assert w1.filesystems[i].name == g;
    OwnedFilesystemIs(w1, i);
  }

  // The class of one group after a run.
  lemma ClassAfter(w: World, m: Mishaps, g: string)
    requires g in w.classes
    ensures g in Migrate(w, m).classes
    ensures Migrate(w, m).classes[g] ==
      if g in Keys(w.disks) && Succeeds(w, g, m) && !ClassLabelled(w, g) then AdoptClass(w.classes[g], g) else w.classes[g]
  {
  }

  lemma ResumedClass(w: World, m: Mishaps, now: int, g: string)
    requires g in w.classes
    ensures var w1 := Migrate(w, m);
      g in w1.classes && g in Migrate(w1, Calm(now)).classes && g in Migrate(w, Calm(now)).classes
      && (Migrate(w1, Calm(now)).classes[g] == Migrate(w, Calm(now)).classes[g]
          <==> !(g in Keys(w.disks) && Valid(w, g, Calm(0)) && g !in Keys(w1.disks) && !ClassLabelled(w1, g)))
  {
    var w1 := Migrate(w, m);
    CalmSucceeds(w, g, now);
    CalmSucceeds(w1, g, now);
    ValidityLasts(w, m, g);
    LegacyOnlyShrinks(w, m, g);
    ClassAfter(w, m, g);
    ClassAfter(w, Calm(now), g);
    ClassAfter(w1, Calm(now), g);
    AdoptedClassIsLabelled(w.classes[g], g);
  }

  lemma AdoptedClassIsLabelled(sc: StorageClass, g: string)
    ensures HasLabel(AdoptClass(sc, g).labels, Migrated, TRUE_VALUE)
  {
  }

  lemma ResumedAllDisks(w: World, m: Mishaps, now: int)
    ensures Migrate(Migrate(w, m), Calm(now)).disks == Migrate(w, Calm(now)).disks
  {
    var w2, wu := Migrate(Migrate(w, m), Calm(now)), Migrate(w, Calm(now));
    forall i | 0 <= i < |w.disks| ensures w2.disks[i] == wu.disks[i] {
      ResumedDisks(w, m, now, i);
    }
  }

  lemma ResumedAllClaims(w: World, m: Mishaps, now: int)
    ensures var a, b := Migrate(Migrate(w, m), Calm(now)), Migrate(w, Calm(now));
      && a.claims.Keys == b.claims.Keys
      && (forall n :: n in a.claims ==> a.claims[n].(conditions := []) == b.claims[n].(conditions := []))
  {
    forall g {
      ResumedClaim(w, m, now, g);
    }
  }

  lemma ResumedAllFilesystems(w: World, m: Mishaps, now: int)
    requires DistinctFilesystemNames(w.filesystems) && Resumable(w, Migrate(w, m))
    ensures Migrate(Migrate(w, m), Calm(now)).filesystems == Migrate(w, Calm(now)).filesystems
  {
    var w2, wu := Migrate(Migrate(w, m), Calm(now)), Migrate(w, Calm(now));
    forall i | 0 <= i < |w.filesystems| ensures w2.filesystems[i] == wu.filesystems[i] {
      ResumedFilesystem(w, m, now, i);
    }
  }

  lemma ResumedAllClasses(w: World, m: Mishaps, now: int)
    requires Resumable(w, Migrate(w, m))
    ensures Migrate(Migrate(w, m), Calm(now)).classes == Migrate(w, Calm(now)).classes
  {
    var w2, wu := Migrate(Migrate(w, m), Calm(now)), Migrate(w, Calm(now));
    forall g | g in w.classes ensures w2.classes[g] == wu.classes[g] {
      ResumedClass(w, m, now, g);
    }
  }

  lemma StrandedDiffers(w: World, m: Mishaps, now: int)
    requires DistinctFilesystemNames(w.filesystems) && !Resumable(w, Migrate(w, m))
    ensures !SameOwnership(Migrate(Migrate(w, m), Calm(now)), Migrate(w, Calm(now)))
  {
    var w1 := Migrate(w, m);
    var g :| g in Keys(w.disks) && Valid(w, g, Calm(0)) && g !in Keys(w1.disks)
      && !(FilesystemOwned(w1, g) && ClassLabelled(w1, g));
    if !FilesystemOwned(w1, g) {
      StrandedFilesystem(w, m, now, g);
    } else {
      ResumedClass(w, m, now, g);
    }
  }

  lemma StrandedFilesystem(w: World, m: Mishaps, now: int, g: string)
    requires DistinctFilesystemNames(w.filesystems)
    requires g in Keys(w.disks) && Valid(w, g, Calm(0)) && g !in Keys(Migrate(w, m).disks) && !FilesystemOwned(Migrate(w, m), g)
    ensures Migrate(Migrate(w, m), Calm(now)).filesystems != Migrate(w, Calm(now)).filesystems
  {
    var f :| f in w.filesystems && f.name == g;
    var i :| 0 <= i < |w.filesystems| && w.filesystems[i] == f;
    ResumedFilesystem(w, m, now, i);
  }

  // Whatever failed in a first run, and wherever it was cut off, a second undisturbed run gives
  // the ownership of one undisturbed run if and only if the first left every unfinished group
  // with a legacy disk.
  lemma ResumeIff(w: World, m: Mishaps, now: int)
    requires DistinctFilesystemNames(w.filesystems)
    ensures SameOwnership(Migrate(Migrate(w, m), Calm(now)), Migrate(w, Calm(now))) <==> Resumable(w, Migrate(w, m))
  {
    if Resumable(w, Migrate(w, m)) {
      ResumedAllDisks(w, m, now);
      ResumedAllClaims(w, m, now);
      ResumedAllFilesystems(w, m, now);
      ResumedAllClasses(w, m, now);
    } else {
      StrandedDiffers(w, m, now);
    }
  }

  // The condition can fail: one disk, one filesystem, and a first run in which the update of the
  // filesystem fails; no later run adopts it.
  lemma StrandedExample(now: int) returns (w: World, m: Mishaps)
    ensures m == Calm(0).(filesystemUpdates := {"fs"})
    ensures w.disks == [LocalDisk("0x1", "/dev/sda", "node", [], map[], None, "fs", false)]
    ensures w.filesystems == [Filesystem("fs", BuildSpec(["0x1"]), [], map[], None, false)]
    ensures w.claims == map[] && w.classes == map[] && WellFormed(w)
    ensures !SameOwnership(Migrate(Migrate(w, m), Calm(now)), Migrate(w, Calm(now)))
  {
    var d := LocalDisk("0x1", "/dev/sda", "node", [], map[], None, "fs", false);
    var f := Filesystem("fs", BuildSpec(["0x1"]), [], map[], None, false);
    w := World(map[], [d], [f], map[], [], [], map[]);
    m := Calm(0).(filesystemUpdates := {"fs"});
    var w1 := Migrate(w, m);
    assert d in w.disks && f in w.filesystems && IsLegacy(d);
    assert GroupDisks(w.disks, "fs") == [d];
    assert AdoptsDisk(w, Keys(w.disks), m, d);
    AdoptedIsNotLegacy(d, "fs");
    assert w1.disks == [AdoptDisk(d, "fs")];
    assert w1.filesystems == [f];
    assert "fs" in Keys(w.disks) && Valid(w, "fs", Calm(0));
    assert !Resumable(w, w1);
    ResumeIff(w, m, now);
  }

  // ---- what a run gives a claim ----

  lemma AdoptedOwners(owners: seq<OwnerRef>, g: string, n: string)
    ensures OwnedBy(Upserted(owners, g), n) <==> OwnedBy(owners, n) || g == n
  {
    assert ClaimRef(g) in owners + [ClaimRef(g)];
  }

  // A claim owns a disk after a run if it owned it before or the run adopted it for the claim.
  lemma AdoptedFor(w: World, m: Mishaps, n: string, i: nat)
    requires i < |w.disks|
    ensures var d, d' := w.disks[i], Migrate(w, m).disks[i];
      && d'.device == d.device && d'.terminating == d.terminating
      && (OwnedBy(d'.owners, n) <==>
            OwnedBy(d.owners, n) || (d.filesystem == n && AdoptsDisk(w, Keys(w.disks), m, d)))
  {
    var d := w.disks[i];
    if AdoptsDisk(w, Keys(w.disks), m, d) {
      assert AdoptDisk(d, d.filesystem).owners == [ClaimRef(d.filesystem)];
    }
  }

  // A filesystem is only ever adopted for the claim of its own name.
  lemma FilesystemFor(w: World, m: Mishaps, n: string, i: nat)
    requires i < |w.filesystems|
    ensures var f, f' := w.filesystems[i], Migrate(w, m).filesystems[i];
      OwnedBy(f'.owners, n) <==>
        OwnedBy(f.owners, n) || (f.name == n && AdoptsFilesystem(w, Keys(w.disks), m, f))
  {
    var f := w.filesystems[i];
    if AdoptsFilesystem(w, Keys(w.disks), m, f) {
      AdoptedOwners(f.owners, f.name, n);
    }
  }

  // ---- hand-over to the reconciler ----

  // No disk already names the claim to come as its owner.
  predicate NoStrays(w: World, g: string) {
    g !in w.claims && forall d :: d in w.disks ==> !OwnedBy(d.owners, g)
  }

  // What the claim owns after the run is its group, adopted.
  lemma OwnedIsAdopted(w: World, m: Mishaps, g: string, e: LocalDisk) returns (d: LocalDisk)
    requires NoStrays(w, g) && e in OwnedDisks(Migrate(w, m).disks, g)
    ensures d in GroupDisks(w.disks, g) && e == AdoptDisk(d, g)
  {
    var w1 := Migrate(w, m);
    var i :| 0 <= i < |w1.disks| && w1.disks[i] == e;
    d := w.disks[i];
    assert d in w.disks && !OwnedBy(d.owners, g);
    assert AdoptsDisk(w, Keys(w.disks), m, d);
    assert Upserted(d.owners, d.filesystem) == [ClaimRef(d.filesystem)];
  }

  lemma AdoptedIsIn(w: World, m: Mishaps, g: string, d: LocalDisk)
    requires g in Keys(w.disks) && DisksDone(w, g, m) && d in GroupDisks(w.disks, g)
    ensures AdoptDisk(d, g) in OwnedDisks(Migrate(w, m).disks, g)
  {
    var w1 := Migrate(w, m);
    var i :| 0 <= i < |w.disks| && w.disks[i] == d;
    assert AdoptsDisk(w, Keys(w.disks), m, d);
    assert w1.disks[i] == AdoptDisk(d, g);
    assert OwnedBy(AdoptDisk(d, g).owners, g);
  }

  lemma OwnedDeviceIsGroups(w: World, m: Mishaps, g: string, e: LocalDisk)
    requires NoStrays(w, g) && e in OwnedDisks(Migrate(w, m).disks, g)
    ensures e.device in Devices(GroupDisks(w.disks, g))
  {
    var d := OwnedIsAdopted(w, m, g, e);
    var group := GroupDisks(w.disks, g);
    var i :| 0 <= i < |group| && group[i] == d;
    assert Devices(group)[i] == e.device;
  }

  lemma GroupDeviceIsOwned(w: World, m: Mishaps, g: string, i: nat)
    requires g in Keys(w.disks) && DisksDone(w, g, m) && i < |GroupDisks(w.disks, g)|
    ensures GroupDisks(w.disks, g)[i].device in DeviceSet(OwnedDisks(Migrate(w, m).disks, g))
  {
    var d := GroupDisks(w.disks, g)[i];
    AdoptedIsIn(w, m, g, d);
    assert AdoptDisk(d, g).device == d.device != "";
  }

  lemma OwnedDevicesAreGroups(w: World, m: Mishaps, g: string, x: string)
    requires NoStrays(w, g) && x in DeviceSet(OwnedDisks(Migrate(w, m).disks, g))
    ensures x in Devices(GroupDisks(w.disks, g))
  {
    var e :| e in OwnedDisks(Migrate(w, m).disks, g) && e.device == x;
    OwnedDeviceIsGroups(w, m, g, e);
  }

  lemma GroupDevicesAreOwned(w: World, m: Mishaps, g: string, x: string)
    requires g in Keys(w.disks) && DisksDone(w, g, m) && x in Devices(GroupDisks(w.disks, g))
    ensures x in DeviceSet(OwnedDisks(Migrate(w, m).disks, g))
  {
    var devices := Devices(GroupDisks(w.disks, g));
    var i :| 0 <= i < |devices| && devices[i] == x;
    GroupDeviceIsOwned(w, m, g, i);
  }

  lemma DeviceIff(w: World, m: Mishaps, g: string, x: string)
    requires NoStrays(w, g) && g in Keys(w.disks) && DisksDone(w, g, m)
    ensures x in DeviceSet(OwnedDisks(Migrate(w, m).disks, g)) <==> x in Devices(GroupDisks(w.disks, g))
  {
    if x in DeviceSet(OwnedDisks(Migrate(w, m).disks, g)) {
      OwnedDevicesAreGroups(w, m, g, x);
    }
    if x in Devices(GroupDisks(w.disks, g)) {
      GroupDevicesAreOwned(w, m, g, x);
    }
  }

  lemma SameSet(a: set<string>, devices: seq<string>)
    requires forall x :: x in a <==> x in devices
    ensures a == ToSet(devices)
  {
  }

  lemma SameDevices(w: World, m: Mishaps, g: string)
    requires NoStrays(w, g) && g in Keys(w.disks) && DisksDone(w, g, m)
    ensures DeviceSet(OwnedDisks(Migrate(w, m).disks, g)) == ToSet(Devices(GroupDisks(w.disks, g)))
  {
    forall x {
      DeviceIff(w, m, g, x);
    }
    SameSet(DeviceSet(OwnedDisks(Migrate(w, m).disks, g)), Devices(GroupDisks(w.disks, g)));
  }

  // A claim created by the migration passes the reconciler's device check: it owns disks, and
  // their devices are exactly its own.
  lemma HandOver(w: World, m: Mishaps, g: string)
    requires NoStrays(w, g) && g in Keys(w.disks) && DisksDone(w, g, m)
    ensures var w1 := Migrate(w, m);
      && g in w1.claims && w1.claims[g] == NewClaim(w, g, m)
      && DeviceSet(OwnedDisks(w1.disks, g)) == ToSet(w1.claims[g].devices)
      && OwnedDisks(w1.disks, g) != []
  {
    var d :| d in w.disks && IsLegacy(d) && d.filesystem == g;
    AdoptedIsIn(w, m, g, d);
    SameDevices(w, m, g);
  }

  // The conditions it is given: one per type, all True.
  lemma MigratedStatus(disks: nat, hasClass: bool, now: int)
    ensures var cs := MigratedConditions(disks, hasClass, now);
      && Unique(cs)
      && (forall c :: c in cs ==> c.status == True && c.reason == MigrationComplete)
      && IsTrue(cs, DeviceValidated) && IsTrue(cs, LocalDiskCreated) && IsTrue(cs, FileSystemCreated) && IsTrue(cs, Ready)
      && (IsTrue(cs, StorageClassCreated) <==> hasClass)
  {
    var cs := MigratedConditions(disks, hasClass, now);
    assert cs[0].kind == DeviceValidated && cs[1].kind == LocalDiskCreated && cs[2].kind == FileSystemCreated;
    assert cs[0] in cs && cs[1] in cs && cs[2] in cs && cs[|cs| - 1] in cs;
    if hasClass {
      assert cs[3].kind == StorageClassCreated && cs[3] in cs;
    }
  }
}
