/** The migration as it runs: discover, group, then validate and migrate one group after the
    other in the arbitrary order of a map iteration.  The run is proved to leave the cluster
    in the state `MigrationSpec.Migrate` gives, which does not mention that order. */
module Migration {
  import opened Conditions
  import opened Cluster
  import opened ReconcilerSpec
  import opened MigrationSpec
  import MigrationMeaning

  /** The resources of one legacy filesystem; the last two fields are filled in by validation. */
  datatype Group = Group(
    filesystemName: string,
    disks: seq<LocalDisk>,
    devices: seq<string>,
    isValid: bool,
    filesystem: Option<Filesystem>,
    storageClass: Option<StorageClass>)

  // ---- grouping ----

  lemma {:induction false} GroupDisksAppend(a: seq<LocalDisk>, d: LocalDisk, g: string)
    ensures GroupDisks(a + [d], g) == GroupDisks(a, g) + if IsLegacy(d) && d.filesystem == g then [d] else []
  {
    if a == [] {
      assert a + [d] == [d];
    } else {
      GroupDisksAppend(a[1..], d, g);
      assert (a + [d])[1..] == a[1..] + [d];
    }
  }

  lemma {:induction false} GroupsOfCandidates(disks: seq<LocalDisk>, g: string)
    ensures GroupDisks(LegacyDisks(disks), g) == GroupDisks(disks, g)
  {
    if disks != [] {
      GroupsOfCandidates(disks[1..], g);
      if IsLegacy(disks[0]) {
        assert LegacyDisks(disks)[1..] == LegacyDisks(disks[1..]);
      }
    }
  }

  // The group of a filesystem name, before validation.
  function GroupOf(disks: seq<LocalDisk>, g: string): Group {
    Group(g, GroupDisks(disks, g), Devices(GroupDisks(disks, g)), false, None, None)
  }

  lemma GroupStep(a: seq<LocalDisk>, d: LocalDisk, g: string)
    requires IsLegacy(d)
    ensures d.filesystem == g ==>
      GroupOf(a + [d], g) == GroupOf(a, g).(disks := GroupOf(a, g).disks + [d], devices := GroupOf(a, g).devices + [d.device])
    ensures d.filesystem != g ==> GroupOf(a + [d], g) == GroupOf(a, g)
  {
    GroupDisksAppend(a, d, g);
    assert GroupDisks(a, g) + [] == GroupDisks(a, g);
  }

  lemma NoGroup(a: seq<LocalDisk>, g: string)
    requires g !in Keys(a)
    ensures GroupOf(a, g) == Group(g, [], [], false, None, None)
  {
    if GroupDisks(a, g) != [] {
      assert GroupDisks(a, g)[0] in GroupDisks(a, g);
    }
  }

  method GroupByFilesystem(candidates: seq<LocalDisk>) returns (groups: map<string, Group>)
    requires forall d :: d in candidates ==> IsLegacy(d)
    ensures groups.Keys == Keys(candidates)
    ensures forall g :: g in groups ==> groups[g] == GroupOf(candidates, g)
  {
    groups := map[];
    for i := 0 to |candidates|
      invariant groups.Keys == Keys(candidates[..i])
      invariant forall g :: g in groups ==> groups[g] == GroupOf(candidates[..i], g)
    {
      var d := candidates[i];
      ghost var before := candidates[..i];
      assert candidates[..i + 1] == before + [d];
      forall g {
        GroupStep(before, d, g);
      }
      var name := d.filesystem;
      if name !in groups {
        NoGroup(before, name);
        groups := groups[name := Group(name, [], [], false, None, None)];
      }
      groups := groups[name := groups[name].(disks := groups[name].disks + [d], devices := groups[name].devices + [d.device])];
    }
    assert candidates[..|candidates|] == candidates;
  }

  // The groups partition the candidates: each candidate is in exactly one of them, once.
  lemma GroupsPartition(disks: seq<LocalDisk>, d: LocalDisk)
    requires d in LegacyDisks(disks)
    ensures d.filesystem in Keys(disks) && d in GroupDisks(disks, d.filesystem)
    ensures forall g :: g != d.filesystem ==> d !in GroupDisks(disks, g)
    ensures multiset(GroupDisks(disks, d.filesystem))[d] == multiset(disks)[d]
  {
    GroupCounts(disks, d);
  }

  lemma {:induction false} GroupCounts(disks: seq<LocalDisk>, d: LocalDisk)
    requires IsLegacy(d)
    ensures multiset(GroupDisks(disks, d.filesystem))[d] == multiset(disks)[d]
  {
    if disks != [] {
      GroupCounts(disks[1..], d);
      assert disks == [disks[0]] + disks[1..];
    }
  }

  // ---- updating one object in a list, by name ----

  function ReplacedDisk(disks: seq<LocalDisk>, d: LocalDisk): (r: seq<LocalDisk>)
    ensures |r| == |disks|
    ensures forall i :: 0 <= i < |r| ==> r[i] == if disks[i].name == d.name then d else disks[i]
  {
    seq(|disks|, i requires 0 <= i < |disks| => if disks[i].name == d.name then d else disks[i])
  }

  function ReplacedFilesystem(filesystems: seq<Filesystem>, f: Filesystem): (r: seq<Filesystem>)
    ensures |r| == |filesystems|
    ensures forall i :: 0 <= i < |r| ==> r[i] == if filesystems[i].name == f.name then f else filesystems[i]
  {
    seq(|filesystems|, i requires 0 <= i < |filesystems| => if filesystems[i].name == f.name then f else filesystems[i])
  }

  // ---- what one group adds to what the groups before it did ----

  // The disk list when the groups in `done` and the first disks of group g have been adopted.
  function Adopting(w: World, done: set<string>, m: Mishaps, first: seq<LocalDisk>, g: string): (r: seq<LocalDisk>)
    ensures |r| == |w.disks|
    ensures forall i :: 0 <= i < |r| ==>
      r[i] == if w.disks[i] in first then AdoptDisk(w.disks[i], g) else MigratedDisks(w, done, m)[i]
  {
    seq(|w.disks|, i requires 0 <= i < |w.disks| =>
      if w.disks[i] in first then AdoptDisk(w.disks[i], g) else MigratedDisks(w, done, m)[i])
  }

  lemma SameDisk(disks: seq<LocalDisk>, a: LocalDisk, b: LocalDisk)
    requires DistinctDiskNames(disks) && a in disks && b in disks && a.name == b.name
    ensures a == b
  {
    var i :| 0 <= i < |disks| && disks[i] == a;
    var j :| 0 <= j < |disks| && disks[j] == b;
    if i < j {
    } else if j < i {
    }
  }

  lemma AdoptNext(w: World, done: set<string>, m: Mishaps, g: string, k: nat)
    requires DistinctDiskNames(w.disks) && g !in done
    requires k < |GroupDisks(w.disks, g)|
    ensures var ds := GroupDisks(w.disks, g);
      Adopting(w, done, m, ds[..k + 1], g) == ReplacedDisk(Adopting(w, done, m, ds[..k], g), AdoptDisk(ds[k], g))
  {
    var ds := GroupDisks(w.disks, g);
    var a := Adopting(w, done, m, ds[..k + 1], g);
    var b := ReplacedDisk(Adopting(w, done, m, ds[..k], g), AdoptDisk(ds[k], g));
    assert ds[k] in ds;
    forall i | 0 <= i < |w.disks| ensures a[i] == b[i] {
      AdoptNextDisk(w.disks, ds, k, w.disks[i], MigratedDisks(w, done, m)[i], g);
    }
  }

  lemma AdoptNextDisk(disks: seq<LocalDisk>, ds: seq<LocalDisk>, k: nat, d: LocalDisk, other: LocalDisk, g: string)
    requires DistinctDiskNames(disks) && k < |ds| && ds[k] in disks && d in disks && other.name == d.name
    ensures var before := if d in ds[..k] then AdoptDisk(d, g) else other;
      before.name == d.name
      && (if d in ds[..k + 1] then AdoptDisk(d, g) else other) == if d.name == ds[k].name then AdoptDisk(ds[k], g) else before
  {
    assert ds[..k + 1] == ds[..k] + [ds[k]];
    if d.name == ds[k].name {
      SameDisk(disks, d, ds[k]);
    }
  }

  lemma AdoptNone(w: World, done: set<string>, m: Mishaps, g: string)
    requires g !in done && (!Claimed(w, g, m) || Reached(GroupDisks(w.disks, g), m) == [])
    ensures MigratedDisks(w, done + {g}, m) == MigratedDisks(w, done, m)
  {
  }

  lemma AdoptedSoFar(w: World, done: set<string>, m: Mishaps, g: string, k: nat)
    requires g !in done && Claimed(w, g, m) && k <= |GroupDisks(w.disks, g)|
    requires Reached(GroupDisks(w.disks, g), m) == GroupDisks(w.disks, g)[..k]
    ensures Adopting(w, done, m, GroupDisks(w.disks, g)[..k], g) == MigratedDisks(w, done + {g}, m)
  {
    var ds := GroupDisks(w.disks, g);
    forall i | 0 <= i < |w.disks|
      ensures Adopting(w, done, m, ds[..k], g)[i] == MigratedDisks(w, done + {g}, m)[i]
    {
      var d := w.disks[i];
      if d in ds[..k] {
        assert d in ds;
        assert AdoptsDisk(w, done + {g}, m, d);
      } else {
        assert AdoptsDisk(w, done + {g}, m, d) <==> AdoptsDisk(w, done, m, d);
      }
    }
  }

  lemma {:induction false} ReachedUpTo(disks: seq<LocalDisk>, m: Mishaps, k: nat)
    requires k <= |disks|
    requires forall i :: 0 <= i < k ==> disks[i].name !in m.diskUpdates
    ensures k == |disks| || disks[k].name in m.diskUpdates ==> Reached(disks, m) == disks[..k]
    decreases |disks|
  {
    if k > 0 {
      ReachedUpTo(disks[1..], m, k - 1);
      assert disks[..k] == [disks[0]] + disks[1..][..k - 1];
    }
  }

  lemma NothingAdopted(w: World, done: set<string>, m: Mishaps, g: string)
    ensures Adopting(w, done, m, [], g) == MigratedDisks(w, done, m)
  {
  }

  // The first k disks of the group have been adopted.
  predicate AdoptedUpTo(w: World, done: set<string>, m: Mishaps, g: string, k: nat, disks: seq<LocalDisk>) {
    && k <= |GroupDisks(w.disks, g)|
    && disks == Adopting(w, done, m, GroupDisks(w.disks, g)[..k], g)
    && forall i :: 0 <= i < k ==> GroupDisks(w.disks, g)[i].name !in m.diskUpdates
  }

  lemma AdoptionStarts(w: World, done: set<string>, m: Mishaps, g: string)
    ensures AdoptedUpTo(w, done, m, g, 0, MigratedDisks(w, done, m))
  {
    NothingAdopted(w, done, m, g);
  }

  lemma AdoptionGoesOn(w: World, done: set<string>, m: Mishaps, g: string, k: nat, disks: seq<LocalDisk>)
    requires DistinctDiskNames(w.disks) && g !in done && AdoptedUpTo(w, done, m, g, k, disks)
    requires k < |GroupDisks(w.disks, g)| && GroupDisks(w.disks, g)[k].name !in m.diskUpdates
    ensures AdoptedUpTo(w, done, m, g, k + 1, ReplacedDisk(disks, AdoptDisk(GroupDisks(w.disks, g)[k], g)))
  {
    AdoptNext(w, done, m, g, k);
  }

  // The loop stops at the first disk whose update fails, or at the end.
  lemma AdoptionEnds(w: World, done: set<string>, m: Mishaps, g: string, k: nat, disks: seq<LocalDisk>)
    requires g !in done && Claimed(w, g, m) && AdoptedUpTo(w, done, m, g, k, disks)
    requires k == |GroupDisks(w.disks, g)| || GroupDisks(w.disks, g)[k].name in m.diskUpdates
    ensures disks == MigratedDisks(w, done + {g}, m)
    ensures DisksDone(w, g, m) <==> k == |GroupDisks(w.disks, g)|
  {
    ReachedUpTo(GroupDisks(w.disks, g), m, k);
    AdoptedSoFar(w, done, m, g, k);
  }

  lemma ClaimIdle(w: World, done: set<string>, m: Mishaps, g: string)
    requires g in w.claims || !Claimed(w, g, m)
    ensures MigratedClaims(w, done + {g}, m) == MigratedClaims(w, done, m)
  {
  }

  lemma ClaimAdded(w: World, done: set<string>, m: Mishaps, g: string)
    requires g !in w.claims && Claimed(w, g, m)
    ensures MigratedClaims(w, done + {g}, m) == MigratedClaims(w, done, m)[g := NewClaim(w, g, m)]
  {
  }

  lemma ClaimStep(w: World, done: set<string>, m: Mishaps, g: string)
    requires g !in done
    ensures MigratedClaims(w, done + {g}, m) ==
      if g in w.claims || !Claimed(w, g, m) then MigratedClaims(w, done, m)
      else MigratedClaims(w, done, m)[g := NewClaim(w, g, m)]
    ensures g in MigratedClaims(w, done, m) <==> g in w.claims
  {
    if g in w.claims || !Claimed(w, g, m) {
      ClaimIdle(w, done, m, g);
    } else {
      ClaimAdded(w, done, m, g);
    }
  }

  lemma FilesystemStepAt(w: World, done: set<string>, m: Mishaps, f: Filesystem, i: nat)
    requires i < |w.filesystems| && f.name !in done && (w.filesystems[i].name == f.name ==> w.filesystems[i] == f)
    ensures MigratedFilesystems(w, done, m)[i].name == w.filesystems[i].name
    ensures MigratedFilesystems(w, done + {f.name}, m)[i] ==
      if w.filesystems[i].name == f.name && AdoptsFilesystem(w, done + {f.name}, m, f)
      then AdoptFilesystem(f, f.name) else MigratedFilesystems(w, done, m)[i]
  {
  }

  lemma FilesystemStep(w: World, done: set<string>, m: Mishaps, f: Filesystem)
    requires DistinctFilesystemNames(w.filesystems) && f in w.filesystems && f.name !in done
    ensures f in MigratedFilesystems(w, done, m)
    ensures MigratedFilesystems(w, done + {f.name}, m) ==
      if AdoptsFilesystem(w, done + {f.name}, m, f)
      then ReplacedFilesystem(MigratedFilesystems(w, done, m), AdoptFilesystem(f, f.name))
      else MigratedFilesystems(w, done, m)
  {
    var k :| 0 <= k < |w.filesystems| && w.filesystems[k] == f;
    assert MigratedFilesystems(w, done, m)[k] == f;
    forall i | 0 <= i < |w.filesystems| ensures w.filesystems[i].name == f.name ==> w.filesystems[i] == f {
      if i < k {
        assert w.filesystems[i].name != w.filesystems[k].name;
      } else if k < i {
        assert w.filesystems[k].name != w.filesystems[i].name;
      }
    }
    forall i | 0 <= i < |w.filesystems| {
      FilesystemStepAt(w, done, m, f, i);
    }
  }

  lemma FilesystemIdle(w: World, done: set<string>, m: Mishaps, g: string)
    requires g !in done && !FilesystemDone(w, g, m)
    ensures MigratedFilesystems(w, done + {g}, m) == MigratedFilesystems(w, done, m)
  {
  }

  lemma SameMap(a: map<string, StorageClass>, b: map<string, StorageClass>)
    requires a.Keys == b.Keys && forall k :: k in a ==> a[k] == b[k]
    ensures a == b
  {
  }

  lemma ClassAt(w: World, done: set<string>, m: Mishaps, n: string)
    ensures MigratedClasses(w, done, m).Keys == w.classes.Keys
    ensures n in w.classes ==>
      MigratedClasses(w, done, m)[n] == if n in done && AdoptsClass(w, m, n) then AdoptClass(w.classes[n], n) else w.classes[n]
  {
  }

  lemma ClassIdle(w: World, done: set<string>, m: Mishaps, g: string)
    requires !AdoptsClass(w, m, g)
    ensures MigratedClasses(w, done + {g}, m) == MigratedClasses(w, done, m)
  {
    ClassAt(w, done, m, g);
    ClassAt(w, done + {g}, m, g);
    forall n | n in w.classes ensures MigratedClasses(w, done + {g}, m)[n] == MigratedClasses(w, done, m)[n] {
      ClassAt(w, done, m, n);
      ClassAt(w, done + {g}, m, n);
    }
    SameMap(MigratedClasses(w, done + {g}, m), MigratedClasses(w, done, m));
  }

  lemma ClassAdoptedAt(w: World, done: set<string>, m: Mishaps, g: string, n: string)
    requires AdoptsClass(w, m, g) && n in w.classes
    ensures n in MigratedClasses(w, done + {g}, m) && n in MigratedClasses(w, done, m)
    ensures MigratedClasses(w, done + {g}, m)[n] ==
      if n == g then AdoptClass(w.classes[g], g) else MigratedClasses(w, done, m)[n]
  {
    ClassAt(w, done, m, n);
    ClassAt(w, done + {g}, m, n);
  }

  lemma Changed(a: map<string, StorageClass>, b: map<string, StorageClass>, g: string, sc: StorageClass)
    requires a.Keys == b.Keys && g in a && forall n :: n in a ==> b[n] == if n == g then sc else a[n]
    ensures b == a[g := sc]
  {
  }

  lemma ClassAdopted(w: World, done: set<string>, m: Mishaps, g: string)
    requires AdoptsClass(w, m, g)
    ensures MigratedClasses(w, done + {g}, m) == MigratedClasses(w, done, m)[g := AdoptClass(w.classes[g], g)]
  {
    var before, after, sc := MigratedClasses(w, done, m), MigratedClasses(w, done + {g}, m), AdoptClass(w.classes[g], g);
    ClassAt(w, done, m, g);
    ClassAt(w, done + {g}, m, g);
    forall n | n in before ensures after[n] == if n == g then sc else before[n] {
      ClassAdoptedAt(w, done, m, g, n);
    }
    Changed(before, after, g, sc);
  }

  lemma ClassStep(w: World, done: set<string>, m: Mishaps, g: string)
    requires g !in done
    ensures MigratedClasses(w, done + {g}, m) ==
      if AdoptsClass(w, m, g) then MigratedClasses(w, done, m)[g := AdoptClass(w.classes[g], g)]
      else MigratedClasses(w, done, m)
    ensures g in MigratedClasses(w, done, m) <==> g in w.classes
    ensures g in w.classes ==> MigratedClasses(w, done, m)[g] == w.classes[g]
  {
    if AdoptsClass(w, m, g) {
      ClassAdopted(w, done, m, g);
    } else {
      ClassIdle(w, done, m, g);
    }
  }

  lemma OwnedIsThisOne(w: World, f: Filesystem)
    requires DistinctFilesystemNames(w.filesystems) && f in w.filesystems
    ensures FilesystemOwned(w, f.name) <==> HasClaimOwner(f.owners, f.name)
  {
    if FilesystemOwned(w, f.name) {
      var h :| h in w.filesystems && h.name == f.name && HasClaimOwner(h.owners, f.name);
      var i :| 0 <= i < |w.filesystems| && w.filesystems[i] == h;
      var j :| 0 <= j < |w.filesystems| && w.filesystems[j] == f;
      if i < j {
      } else if j < i {
      }
    }
  }

  // Validation reads only objects named like the group: groups already processed do not matter.
  lemma ValidStep(w: World, done: set<string>, m: Mishaps, g: string)
    requires g !in done
    ensures Valid(MigratedWorld(w, done, m), g, m) <==> Valid(w, g, m)
    ensures forall f :: f in MigratedFilesystems(w, done, m) && f.name == g ==> f in w.filesystems
  {
    var fs := MigratedFilesystems(w, done, m);
    ClassStep(w, done, m, g);
    forall f | f in fs && f.name == g ensures f in w.filesystems {
      var i :| 0 <= i < |fs| && fs[i] == f;
      assert f == w.filesystems[i];
    }
    if HasFilesystem(w.filesystems, g) {
      var f :| f in w.filesystems && f.name == g;
      var i :| 0 <= i < |fs| && w.filesystems[i] == f;
      assert fs[i] == f;
    }
  }

  lemma InvalidStep(w: World, done: set<string>, m: Mishaps, g: string)
    requires g !in done && !Valid(w, g, m)
    ensures MigratedWorld(w, done + {g}, m) == MigratedWorld(w, done, m)
  {
    ClaimStep(w, done, m, g);
    AdoptNone(w, done, m, g);
    FilesystemIdle(w, done, m, g);
    ClassStep(w, done, m, g);
  }

  lemma NothingMigrated(w: World, m: Mishaps)
    ensures MigratedWorld(w, {}, m) == w
  {
    assert MigratedDisks(w, {}, m) == w.disks;
    assert MigratedFilesystems(w, {}, m) == w.filesystems;
    assert MigratedClasses(w, {}, m) == w.classes;
    assert MigratedClaims(w, {}, m) == w.claims;
  }

  lemma NoCandidates(disks: seq<LocalDisk>)
    requires LegacyDisks(disks) == []
    ensures Keys(disks) == {}
  {
    assert forall d :: d in disks && IsLegacy(d) ==> d in LegacyDisks(disks);
  }

  // Before the first group.
  lemma NoneDone(w: World, m: Mishaps, dryRun: bool)
    ensures MigratedWorld(w, {}, m) == w && Migrating(w, {}, m, dryRun) == {}
  {
    NothingMigrated(w, m);
  }

  lemma KeysOfCandidates(disks: seq<LocalDisk>)
    ensures Keys(LegacyDisks(disks)) == Keys(disks)
  {
  }

  lemma GroupReady(w: World, done: set<string>, m: Mishaps, candidates: seq<LocalDisk>, g: string)
    requires candidates == LegacyDisks(w.disks) && g in Keys(w.disks) && g !in done
    ensures GroupOf(candidates, g) == GroupOf(w.disks, g) && GroupOf(w.disks, g).devices != []
    ensures Valid(MigratedWorld(w, done, m), g, m) <==> Valid(w, g, m)
    ensures forall f :: f in MigratedFilesystems(w, done, m) && f.name == g ==> f in w.filesystems
    ensures g in MigratedClasses(w, done, m) <==> g in w.classes
    ensures g in w.classes ==> MigratedClasses(w, done, m)[g] == w.classes[g]
  {
    GroupsOfCandidates(w.disks, g);
    ValidStep(w, done, m, g);
    ClassStep(w, done, m, g);
    var d :| d in w.disks && IsLegacy(d) && d.filesystem == g;
    assert d in GroupDisks(w.disks, g);
  }

  predicate Split(done: set<string>, todo: set<string>, all: set<string>) {
    done !! todo && done + todo == all
  }

  lemma SplitStep(done: set<string>, todo: set<string>, all: set<string>, g: string)
    requires Split(done, todo, all) && g in todo
    ensures g in all && g !in done && Split(done + {g}, todo - {g}, all)
  {
  }

  // The groups a run counts as successful.
  function Migrating(w: World, groups: set<string>, m: Mishaps, dryRun: bool): set<string> {
    set g | g in groups && if dryRun then Valid(w, g, m) else Succeeds(w, g, m)
  }

  lemma CountStep(w: World, done: set<string>, m: Mishaps, dryRun: bool, g: string)
    requires g !in done
    ensures |done + {g}| == |done| + 1
    ensures |Migrating(w, done + {g}, m, dryRun)| ==
      |Migrating(w, done, m, dryRun)| + if (if dryRun then Valid(w, g, m) else Succeeds(w, g, m)) then 1 else 0
  {
    if (if dryRun then Valid(w, g, m) else Succeeds(w, g, m)) {
      assert Migrating(w, done + {g}, m, dryRun) == Migrating(w, done, m, dryRun) + {g};
    } else {
      assert Migrating(w, done + {g}, m, dryRun) == Migrating(w, done, m, dryRun);
    }
  }

  // ---- the run ----

  class Migrator {
    var claims: map<string, Claim>
    var disks: seq<LocalDisk>
    var filesystems: seq<Filesystem>
    var classes: map<string, StorageClass>
    const others: World
    const mishaps: Mishaps

    var totalGroups: nat
    var successfulGroups: nat
    var failedGroups: nat
    var totalLocalDisks: nat

    ghost function Objects(): World
      reads this
    {
      others.(claims := claims, disks := disks, filesystems := filesystems, classes := classes)
    }

    constructor (w: World, m: Mishaps)
      ensures Objects() == w && mishaps == m
      ensures totalGroups == successfulGroups == failedGroups == totalLocalDisks == 0
    {
      claims, disks, filesystems, classes := w.claims, w.disks, w.filesystems, w.classes;
      others, mishaps := w, m;
      totalGroups, successfulGroups, failedGroups, totalLocalDisks := 0, 0, 0, 0;
    }

    method DiscoverLegacyDisks() returns (candidates: seq<LocalDisk>)
      ensures candidates == LegacyDisks(disks)
    {
      candidates := [];
      for i := 0 to |disks|
        invariant candidates + LegacyDisks(disks[i..]) == LegacyDisks(disks)
      {
        assert disks[i..][1..] == disks[i + 1..];
        if IsLegacy(disks[i]) {
          candidates := candidates + [disks[i]];
        }
      }
    }

    method UpdateDisk(d: LocalDisk) returns (ok: bool)
      modifies this`disks
      ensures ok <==> d.name !in mishaps.diskUpdates
      ensures disks == if ok then ReplacedDisk(old(disks), d) else old(disks)
    {
      ok := d.name !in mishaps.diskUpdates;
      if ok {
        disks := ReplacedDisk(disks, d);
      }
    }

    method UpdateFilesystem(f: Filesystem) returns (ok: bool)
      modifies this`filesystems
      ensures ok <==> f.name !in mishaps.filesystemUpdates
      ensures filesystems == if ok then ReplacedFilesystem(old(filesystems), f) else old(filesystems)
    {
      ok := f.name !in mishaps.filesystemUpdates;
      if ok {
        filesystems := ReplacedFilesystem(filesystems, f);
      }
    }

    method UpdateClass(name: string, sc: StorageClass) returns (ok: bool)
      modifies this`classes
      ensures ok <==> name !in mishaps.classUpdates
      ensures classes == if ok then old(classes)[name := sc] else old(classes)
    {
      ok := name !in mishaps.classUpdates;
      if ok {
        classes := classes[name := sc];
      }
    }

    // Fetch the filesystem and the optional storage class of a group and check them.
    method ValidateGroup(group: Group) returns (ok: bool, validated: Group)
      requires group.devices != []
      ensures ok <==> Valid(Objects(), group.filesystemName, mishaps)
      ensures ok ==>
        && validated.filesystem.Some? && validated.filesystem.value in filesystems
        && validated.filesystem.value.name == group.filesystemName
        && validated == group.(isValid := true, filesystem := validated.filesystem,
             storageClass := if group.filesystemName in classes then Some(classes[group.filesystemName]) else None)
    {
      validated := group;
      var name := group.filesystemName;
      if name in mishaps.filesystemGets {
        return false, validated;
      }
      var i := 0;
      while i < |filesystems| && filesystems[i].name != name
        invariant 0 <= i <= |filesystems|
        invariant forall j :: 0 <= j < i ==> filesystems[j].name != name
      {
        i := i + 1;
      }
      if i == |filesystems| {
        assert !HasFilesystem(filesystems, name);
        return false, validated;
      }
      assert HasFilesystem(filesystems, name);
      validated := validated.(filesystem := Some(filesystems[i]));
      if name in mishaps.classGets {
        return false, validated;
      }
      if name in classes {
        validated := validated.(storageClass := Some(classes[name]));
        if classes[name].provisioner != PROVISIONER {
          return false, validated;
        }
      } else {
        validated := validated.(storageClass := None);
      }
      validated := validated.(isValid := true);
      return true, validated;
    }

    method CreateOrGetClaim(group: Group) returns (ok: bool)
      modifies this`claims
      ensures ok <==> group.filesystemName !in mishaps.claimGets
                      && (group.filesystemName in old(claims) || group.filesystemName !in mishaps.claimCreates)
      ensures claims == if !ok || group.filesystemName in old(claims) then old(claims)
                        else old(claims)[group.filesystemName := Claim(group.filesystemName, group.devices, false, false,
                          if group.filesystemName in mishaps.statusUpdates then []
                          else MigratedConditions(|group.disks|, group.storageClass.Some?, mishaps.now), MigrationLabels())]
    {
      var name := group.filesystemName;
      if name in mishaps.claimGets {
        return false;
      }
      if name in claims {
        return true;
      }
      if name in mishaps.claimCreates {
        return false;
      }
      var claim := Claim(name, group.devices, false, false, [], MigrationLabels());
      claims := claims[name := claim];
      if name !in mishaps.statusUpdates {
        claims := claims[name := claim.(conditions := MigratedConditions(|group.disks|, group.storageClass.Some?, mishaps.now))];
      }
      return true;
    }

    // Adopt the disks of a group one after the other, up to the first update that fails.
    method AdoptDisks(ghost w: World, ghost done: set<string>, group: Group) returns (ok: bool)
      requires DistinctDiskNames(w.disks) && group.filesystemName !in done
      requires Claimed(w, group.filesystemName, mishaps)
      requires group.disks == GroupDisks(w.disks, group.filesystemName)
      requires disks == MigratedDisks(w, done, mishaps)
      modifies this`disks
      ensures disks == MigratedDisks(w, done + {group.filesystemName}, mishaps)
      ensures ok <==> DisksDone(w, group.filesystemName, mishaps)
    {
      var g := group.filesystemName;
      AdoptionStarts(w, done, mishaps, g);
      for k := 0 to |group.disks|
        invariant AdoptedUpTo(w, done, mishaps, g, k, disks)
      {
        var d := group.disks[k];
        assert d in group.disks && d.owners == [];
        ghost var before := disks;
        var updated := UpdateDisk(AdoptDisk(d, g));
        if !updated {
          AdoptionEnds(w, done, mishaps, g, k, disks);
          return false;
        }
        AdoptionGoesOn(w, done, mishaps, g, k, before);
      }
      AdoptionEnds(w, done, mishaps, g, |group.disks|, disks);
      return true;
    }

    method AdoptOwnFilesystem(ghost w: World, ghost done: set<string>, group: Group) returns (ok: bool)
      requires DistinctFilesystemNames(w.filesystems) && group.filesystemName !in done
      requires DisksDone(w, group.filesystemName, mishaps)
      requires group.filesystem.Some? && group.filesystem.value in w.filesystems
      requires group.filesystem.value.name == group.filesystemName
      requires filesystems == MigratedFilesystems(w, done, mishaps)
      modifies this`filesystems
      ensures filesystems == MigratedFilesystems(w, done + {group.filesystemName}, mishaps)
      ensures ok <==> FilesystemDone(w, group.filesystemName, mishaps)
    {
      var g := group.filesystemName;
      var f := group.filesystem.value;
      FilesystemStep(w, done, mishaps, f);
      OwnedIsThisOne(w, f);
      if HasClaimOwner(f.owners, g) {
        return true;
      }
      ok := UpdateFilesystem(AdoptFilesystem(f, g));
    }

    method LabelOwnClass(ghost w: World, ghost done: set<string>, group: Group) returns (ok: bool)
      requires group.filesystemName !in done && FilesystemDone(w, group.filesystemName, mishaps)
      requires group.storageClass == if group.filesystemName in w.classes then Some(w.classes[group.filesystemName]) else None
      requires classes == MigratedClasses(w, done, mishaps)
      modifies this`classes
      ensures classes == MigratedClasses(w, done + {group.filesystemName}, mishaps)
      ensures ok <==> Succeeds(w, group.filesystemName, mishaps)
    {
      var g := group.filesystemName;
      ClassStep(w, done, mishaps, g);
      if group.storageClass.None? || HasLabel(group.storageClass.value.labels, Migrated, TRUE_VALUE) {
        return true;
      }
      ok := UpdateClass(g, AdoptClass(group.storageClass.value, g));
    }

    method UpdateOwnersAndLabels(ghost w: World, ghost done: set<string>, group: Group) returns (ok: bool)
      requires DistinctDiskNames(w.disks) && DistinctFilesystemNames(w.filesystems) && group.filesystemName !in done
      requires Claimed(w, group.filesystemName, mishaps)
      requires group.disks == GroupDisks(w.disks, group.filesystemName)
      requires group.filesystem.Some? && group.filesystem.value in w.filesystems
      requires group.filesystem.value.name == group.filesystemName
      requires group.storageClass == if group.filesystemName in w.classes then Some(w.classes[group.filesystemName]) else None
      requires disks == MigratedDisks(w, done, mishaps) && filesystems == MigratedFilesystems(w, done, mishaps)
      requires classes == MigratedClasses(w, done, mishaps)
      modifies this`disks, this`filesystems, this`classes
      ensures disks == MigratedDisks(w, done + {group.filesystemName}, mishaps)
      ensures filesystems == MigratedFilesystems(w, done + {group.filesystemName}, mishaps)
      ensures classes == MigratedClasses(w, done + {group.filesystemName}, mishaps)
      ensures ok <==> Succeeds(w, group.filesystemName, mishaps)
    {
      var g := group.filesystemName;
      ok := AdoptDisks(w, done, group);
      if !ok {
        FilesystemIdle(w, done, mishaps, g);
        ClassStep(w, done, mishaps, g);
        return;
      }
      ok := AdoptOwnFilesystem(w, done, group);
      if !ok {
        ClassStep(w, done, mishaps, g);
        return;
      }
      ok := LabelOwnClass(w, done, group);
    }

    // Claim, disks, filesystem and class of one validated group, in this order.
    method MigrateGroup(ghost w: World, ghost done: set<string>, group: Group) returns (ok: bool)
      requires DistinctDiskNames(w.disks) && DistinctFilesystemNames(w.filesystems) && group.filesystemName !in done
      requires Valid(w, group.filesystemName, mishaps)
      requires group.disks == GroupDisks(w.disks, group.filesystemName) && group.devices == Devices(group.disks)
      requires group.filesystem.Some? && group.filesystem.value in w.filesystems
      requires group.filesystem.value.name == group.filesystemName
      requires group.storageClass == if group.filesystemName in w.classes then Some(w.classes[group.filesystemName]) else None
      requires Objects() == MigratedWorld(w, done, mishaps)
      modifies this`claims, this`disks, this`filesystems, this`classes
      ensures Objects() == MigratedWorld(w, done + {group.filesystemName}, mishaps)
      ensures ok <==> Succeeds(w, group.filesystemName, mishaps)
    {
      var g := group.filesystemName;
      ghost var before := MigratedWorld(w, done, mishaps);
      assert claims == before.claims && disks == before.disks && filesystems == before.filesystems
             && classes == before.classes by {
        assert Objects().claims == claims;
      }
      ClaimStep(w, done, mishaps, g);
      ok := CreateOrGetClaim(group);
      if !ok {
        AdoptNone(w, done, mishaps, g);
        FilesystemIdle(w, done, mishaps, g);
        ClassStep(w, done, mishaps, g);
        return;
      }
      ok := UpdateOwnersAndLabels(w, done, group);
    }

    // The groups in `done` have been processed and counted.
    ghost predicate Processed(w: World, done: set<string>, dryRun: bool)
      reads this
    {
      && Objects() == (if dryRun then w else MigratedWorld(w, done, mishaps))
      && successfulGroups == |Migrating(w, done, mishaps, dryRun)|
      && successfulGroups + failedGroups == |done|
    }

    // Validation sees the group's own objects as they were before the run.
    method ReadyGroup(ghost w: World, ghost done: set<string>, g: string, group: Group, ghost dryRun: bool)
      returns (valid: bool, validated: Group)
      requires g !in done && g in Keys(w.disks) && group == GroupOf(LegacyDisks(w.disks), g)
      requires Objects() == if dryRun then w else MigratedWorld(w, done, mishaps)
      ensures valid <==> Valid(w, g, mishaps)
      ensures valid ==>
        && validated.filesystemName == g
        && validated.disks == GroupDisks(w.disks, g) && validated.devices == Devices(validated.disks)
        && validated.filesystem.Some? && validated.filesystem.value in w.filesystems
        && validated.filesystem.value.name == g
        && validated.storageClass == if g in w.classes then Some(w.classes[g]) else None
    {
      GroupReady(w, done, mishaps, LegacyDisks(w.disks), g);
      assert Objects().filesystems == filesystems && Objects().classes == classes;
      valid, validated := ValidateGroup(group);
    }

    // Validate and, unless this is a dry run, migrate one group.
    method AttemptGroup(ghost w: World, ghost done: set<string>, g: string, group: Group, dryRun: bool) returns (ok: bool)
      requires DistinctDiskNames(w.disks) && DistinctFilesystemNames(w.filesystems)
      requires Objects() == if dryRun then w else MigratedWorld(w, done, mishaps)
      requires g !in done && g in Keys(w.disks) && group == GroupOf(LegacyDisks(w.disks), g)
      modifies this`claims, this`disks, this`filesystems, this`classes
      ensures Objects() == if dryRun then w else MigratedWorld(w, done + {g}, mishaps)
      ensures ok <==> if dryRun then Valid(w, g, mishaps) else Succeeds(w, g, mishaps)
    {
      var valid, validated := ReadyGroup(w, done, g, group, dryRun);
      if !valid {
        InvalidStep(w, done, mishaps, g);
        return false;
      }
      if dryRun {
        return true;
      }
      ok := MigrateGroup(w, done, validated);
    }

    method ProcessGroup(ghost w: World, ghost done: set<string>, g: string, group: Group, dryRun: bool)
      requires DistinctDiskNames(w.disks) && DistinctFilesystemNames(w.filesystems)
      requires Processed(w, done, dryRun) && g !in done && g in Keys(w.disks) && group == GroupOf(LegacyDisks(w.disks), g)
      modifies this`claims, this`disks, this`filesystems, this`classes, this`successfulGroups, this`failedGroups
      ensures Processed(w, done + {g}, dryRun)
    {
      var ok := AttemptGroup(w, done, g, group, dryRun);
      CountStep(w, done, mishaps, dryRun, g);
      if ok {
        successfulGroups := successfulGroups + 1;
      } else {
        failedGroups := failedGroups + 1;
      }
    }

    // Group the candidates, if any, and migrate the groups.
    method MigrateCandidates(candidates: seq<LocalDisk>, dryRun: bool)
      requires DistinctDiskNames(disks) && DistinctFilesystemNames(filesystems) && candidates == LegacyDisks(disks)
      requires totalGroups == successfulGroups == failedGroups == 0
      modifies this`claims, this`disks, this`filesystems, this`classes
      modifies this`totalGroups, this`successfulGroups, this`failedGroups
      ensures Processed(old(Objects()), Keys(old(disks)), dryRun) && totalGroups == |Keys(old(disks))|
    {
      ghost var w := Objects();
      assert w.disks == disks && w.filesystems == filesystems;
      NoneDone(w, mishaps, dryRun);
      if |candidates| == 0 {
        NoCandidates(w.disks);
        return;
      }
      var groups := GroupByFilesystem(candidates);
      KeysOfCandidates(w.disks);
      totalGroups := |groups.Keys|;
      MigrateAll(w, groups, dryRun);
    }

    // Migrate every group, in the order in which the map iteration happens to yield them.
    // The outcome does not depend on that order, and every group is counted exactly once.
    method RunMigration(listFails: bool, dryRun: bool) returns (ok: bool)
      requires DistinctDiskNames(disks) && DistinctFilesystemNames(filesystems)
      requires totalGroups == successfulGroups == failedGroups == totalLocalDisks == 0
      modifies this
      ensures ok <==> !listFails
      ensures Objects() == if ok && !dryRun then Migrate(old(Objects()), mishaps) else old(Objects())
      ensures |disks| == |old(disks)|
      ensures forall i :: 0 <= i < |disks| && !MigrationMeaning.Candidate(old(disks)[i]) ==> disks[i] == old(disks)[i]
      ensures ok ==>
        && totalLocalDisks == |LegacyDisks(old(disks))|
        && totalGroups == |Keys(old(disks))|
        && successfulGroups + failedGroups == totalGroups
        && successfulGroups == |Migrating(old(Objects()), Keys(old(disks)), mishaps, dryRun)|
    {
      if listFails {
        return false;
      }
      var candidates := DiscoverLegacyDisks();
      totalLocalDisks := |candidates|;
      MigrateCandidates(candidates, dryRun);
      return true;
    }

    method MigrateAll(ghost w: World, groups: map<string, Group>, dryRun: bool)
      requires DistinctDiskNames(w.disks) && DistinctFilesystemNames(w.filesystems)
      requires Processed(w, {}, dryRun)
      requires groups.Keys == Keys(w.disks)
      requires forall g :: g in groups ==> groups[g] == GroupOf(LegacyDisks(w.disks), g)
      modifies this`claims, this`disks, this`filesystems, this`classes, this`successfulGroups, this`failedGroups
      ensures Processed(w, Keys(w.disks), dryRun)
    {
      ghost var done: set<string> := {};
      var todo := groups.Keys;
      assert Split(done, todo, groups.Keys);
      while todo != {}
        invariant Split(done, todo, groups.Keys)
        invariant Processed(w, done, dryRun)
        decreases todo
      {
        var g :| g in todo;
        SplitStep(done, todo, groups.Keys, g);
        assert groups[g] == GroupOf(LegacyDisks(w.disks), g);
        ProcessGroup(w, done, g, groups[g], dryRun);
        todo := todo - {g};
        done := done + {g};
      }
    }
  }
}
