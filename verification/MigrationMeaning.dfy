/** What a migration does to each single object, told by the object's own fields, by the other
    objects of the same name and by the calls that fail for them. */
module MigrationMeaning {
  import opened Conditions
  import opened Cluster
  import opened MigrationSpec
  import MigrationProofs

  // ---- candidates and groups ----

  // Unowned, neither migrated nor exempted by the user, named like a WWN, with filesystem, device and node.
  predicate Candidate(d: LocalDisk) {
    && d.owners == []
    && !(Migrated in d.labels && d.labels[Migrated] == "true")
    && !(SkipMigration in d.labels && d.labels[SkipMigration] == "true")
    && ("uuid." <= d.name || "eui." <= d.name || "0x" <= d.name)
    && d.filesystem != "" && d.device != "" && d.node != ""
  }

  predicate HasCandidate(w: World, g: string) {
    exists d :: d in w.disks && Candidate(d) && d.filesystem == g
  }

  // The devices of the candidates of one name, in list order.
  function CandidateDevices(disks: seq<LocalDisk>, g: string): seq<string> {
    if disks == [] then []
    else (if Candidate(disks[0]) && disks[0].filesystem == g then [disks[0].device] else []) + CandidateDevices(disks[1..], g)
  }

  // The filesystem of the name exists, a class of the name has the right provisioner, both can be
  // fetched, and the claim is there or can be made.
  predicate GetsClaim(w: World, m: Mishaps, g: string) {
    && (exists f :: f in w.filesystems && f.name == g)
    && (g in w.classes ==> w.classes[g].provisioner == "spectrumscale.csi.ibm.com")
    && g !in m.filesystemGets && g !in m.classGets && g !in m.claimGets
    && (g in w.claims || g !in m.claimCreates)
  }

  // No update of a candidate of the name fails.
  predicate AllDisksUpdate(w: World, m: Mishaps, g: string) {
    forall d :: d in w.disks && Candidate(d) && d.filesystem == g ==> d.name !in m.diskUpdates
  }

  predicate ClaimOwned(owners: seq<OwnerRef>, g: string) {
    exists o :: o in owners && o.kind == FileSystemClaimKind && o.name == g
  }

  // The filesystem of the name has the claim as owner already, or its update does not fail.
  predicate FilesystemUpdates(w: World, m: Mishaps, g: string) {
    g !in m.filesystemUpdates || exists f :: f in w.filesystems && f.name == g && ClaimOwned(f.owners, g)
  }

  function Marks(g: string): Labels {
    map[OwnedByName := g, OwnedByNamespace := "ibm-spectrum-scale", Migrated := "true", MigrationSource := "v1.0"]
  }

  function Owner(g: string): OwnerRef {
    OwnerRef(FusionV1Alpha1, FileSystemClaimKind, g)
  }

  // ---- disks ----

  lemma CandidateIsLegacy(d: LocalDisk)
    ensures Candidate(d) <==> IsLegacy(d)
  {
  }

  // Updates stop at the first that fails.
  lemma {:induction false} ReachedIff(disks: seq<LocalDisk>, m: Mishaps, g: string, i: nat)
    requires DistinctDiskNames(disks) && i < |disks| && IsLegacy(disks[i]) && disks[i].filesystem == g
    ensures disks[i] in Reached(GroupDisks(disks, g), m) <==>
      forall j :: 0 <= j <= i && IsLegacy(disks[j]) && disks[j].filesystem == g ==> disks[j].name !in m.diskUpdates
  {
    if i > 0 {
      var rest := disks[1..];
      assert DistinctDiskNames(rest) by {
        forall a, b | 0 <= a < b < |rest| ensures rest[a].name != rest[b].name {
          assert disks[a + 1].name != disks[b + 1].name;
        }
      }
      ReachedIff(rest, m, g, i - 1);
      assert disks[0].name != disks[i].name;
      assert forall j :: 0 <= j <= i - 1 ==> rest[j] == disks[j + 1];
      assert forall j :: 1 <= j <= i ==> disks[j] == rest[j - 1];
    }
  }

  // No update of a candidate of the disk's group fails up to the disk's own.
  predicate UpdatesReach(w: World, m: Mishaps, i: nat)
    requires i < |w.disks|
  {
    forall j :: 0 <= j <= i && Candidate(w.disks[j]) && w.disks[j].filesystem == w.disks[i].filesystem ==>
      w.disks[j].name !in m.diskUpdates
  }

  lemma ClaimedIff(w: World, m: Mishaps, g: string)
    ensures Claimed(w, g, m) <==> GetsClaim(w, m, g)
  {
  }

  lemma ReachesIff(w: World, m: Mishaps, i: nat)
    requires DistinctDiskNames(w.disks) && i < |w.disks| && IsLegacy(w.disks[i])
    ensures w.disks[i] in Reached(GroupDisks(w.disks, w.disks[i].filesystem), m) <==> UpdatesReach(w, m, i)
  {
    ReachedIff(w.disks, m, w.disks[i].filesystem, i);
  }

  lemma AdoptsIff(w: World, m: Mishaps, i: nat)
    requires DistinctDiskNames(w.disks) && i < |w.disks|
    ensures AdoptsDisk(w, Keys(w.disks), m, w.disks[i]) <==>
      Candidate(w.disks[i]) && GetsClaim(w, m, w.disks[i].filesystem) && UpdatesReach(w, m, i)
  {
    var d := w.disks[i];
    assert d in w.disks;
    if IsLegacy(d) {
      ReachesIff(w, m, i);
      ClaimedIff(w, m, d.filesystem);
    }
  }

  // Exactly the candidates whose group gets its claim, and for whom no update fails up to their own, are
  // given the claim as owner and the labels. Every other disk stays as it is.
  lemma DiskOutcome(w: World, m: Mishaps, i: nat)
    requires DistinctDiskNames(w.disks) && i < |w.disks|
    ensures var d, d' := w.disks[i], Migrate(w, m).disks[i];
      d' ==
      if Candidate(d) && GetsClaim(w, m, d.filesystem) && UpdatesReach(w, m, i)
      then d.(owners := [Owner(d.filesystem)], labels := d.labels + Marks(d.filesystem))
      else d
  {
    var d := w.disks[i];
    var adopted := AdoptsDisk(w, Keys(w.disks), m, d);
    AdoptsIff(w, m, i);
    assert Migrate(w, m).disks[i] == if adopted then AdoptDisk(d, d.filesystem) else d;
    if adopted {
      AdoptedIs(d, d.filesystem);
    }
  }

  lemma AdoptedIs(d: LocalDisk, g: string)
    requires d.owners == []
    ensures AdoptDisk(d, g) == d.(owners := [Owner(g)], labels := d.labels + Marks(g))
  {
    LabelsAre(d.labels, g);
    assert [] + [Owner(g)] == [Owner(g)];
  }

  lemma LabelsAre(labels: Labels, g: string)
    ensures labels + OwnershipLabels(g) + MigrationLabels() == labels + Marks(g)
  {
  }

  // Whatever fails: a disk the user exempted, a migrated or owned one, one not named like a WWN or without
  // filesystem, device or node is left alone.
  lemma OthersLeftAlone(w: World, m: Mishaps, i: nat)
    requires i < |w.disks|
    requires var d := w.disks[i];
      || (SkipMigration in d.labels && d.labels[SkipMigration] == "true")
      || (Migrated in d.labels && d.labels[Migrated] == "true")
      || d.owners != []
      || !("uuid." <= d.name || "eui." <= d.name || "0x" <= d.name)
      || d.filesystem == "" || d.device == "" || d.node == ""
    ensures Migrate(w, m).disks[i] == w.disks[i]
  {
  }

  // An undisturbed run adopts exactly the candidates of which the filesystem exists and a class of its
  // name, if there is one, has the right provisioner.
  lemma CalmDiskOutcome(w: World, now: int, i: nat)
    requires DistinctDiskNames(w.disks) && i < |w.disks|
    ensures var d, d' := w.disks[i], Migrate(w, Calm(now)).disks[i];
      d' ==
      if Candidate(d)
         && (exists f :: f in w.filesystems && f.name == d.filesystem)
         && (d.filesystem in w.classes ==> w.classes[d.filesystem].provisioner == "spectrumscale.csi.ibm.com")
      then d.(owners := [Owner(d.filesystem)], labels := d.labels + Marks(d.filesystem))
      else d
  {
    DiskOutcome(w, Calm(now), i);
  }

  // ---- filesystems ----

  lemma {:induction false} ReachedAllIff(disks: seq<LocalDisk>, m: Mishaps)
    ensures Reached(disks, m) == disks <==> forall d :: d in disks ==> d.name !in m.diskUpdates
  {
    if disks != [] {
      ReachedAllIff(disks[1..], m);
      assert disks == [disks[0]] + disks[1..];
    }
  }

  lemma DisksDoneIff(w: World, m: Mishaps, g: string)
    ensures DisksDone(w, g, m) <==> GetsClaim(w, m, g) && AllDisksUpdate(w, m, g)
    ensures g in Keys(w.disks) <==> HasCandidate(w, g)
  {
    ReachedAllIff(GroupDisks(w.disks, g), m);
    assert Claimed(w, g, m) <==> GetsClaim(w, m, g);
    assert forall d :: d in GroupDisks(w.disks, g) <==> d in w.disks && Candidate(d) && d.filesystem == g;
  }

  // The filesystem of a group that gets its claim and all its disks is given the claim as owner and the
  // labels, unless it has that owner or its update fails. Every other filesystem stays as it is.
  lemma FilesystemOutcome(w: World, m: Mishaps, i: nat)
    requires DistinctFilesystemNames(w.filesystems) && i < |w.filesystems|
    ensures var f, f' := w.filesystems[i], Migrate(w, m).filesystems[i];
      f' ==
      if HasCandidate(w, f.name) && GetsClaim(w, m, f.name) && AllDisksUpdate(w, m, f.name)
         && !ClaimOwned(f.owners, f.name) && f.name !in m.filesystemUpdates
      then f.(owners := f.owners + [Owner(f.name)], labels := f.labels + Marks(f.name))
      else f
  {
    var f := w.filesystems[i];
    DisksDoneIff(w, m, f.name);
    MigrationProofs.OwnedFilesystemIs(w, i);
    LabelsAre(f.labels, f.name);
    assert OwnedBy(f.owners, f.name) ==> ClaimOwned(f.owners, f.name);
  }

  // ---- classes ----

  // The class of a group that gets that far is labelled unless it is already; it gets no owner.
  lemma ClassOutcome(w: World, m: Mishaps, g: string)
    requires g in w.classes
    ensures g in Migrate(w, m).classes
    ensures var sc := w.classes[g];
      Migrate(w, m).classes[g] ==
      if HasCandidate(w, g) && GetsClaim(w, m, g) && AllDisksUpdate(w, m, g) && FilesystemUpdates(w, m, g)
         && !(Migrated in sc.labels && sc.labels[Migrated] == "true") && g !in m.classUpdates
      then sc.(labels := sc.labels + Marks(g),
               annotations := sc.annotations["fusion.storage.openshift.io/migration-timestamp" := TIMESTAMP])
      else sc
  {
    DisksDoneIff(w, m, g);
    MigrationProofs.ClassAfter(w, m, g);
    LabelsAre(w.classes[g].labels, g);
    assert FilesystemOwned(w, g) <==> exists f :: f in w.filesystems && f.name == g && ClaimOwned(f.owners, g);
  }

  // What a run counts as a success: everything of the group was done. A dry run asks only for the objects.
  lemma SuccessIff(w: World, m: Mishaps, g: string)
    ensures Succeeds(w, g, m) <==>
      && GetsClaim(w, m, g) && AllDisksUpdate(w, m, g) && FilesystemUpdates(w, m, g)
      && (g !in w.classes || g !in m.classUpdates
          || (Migrated in w.classes[g].labels && w.classes[g].labels[Migrated] == "true"))
    ensures Valid(w, g, m) <==>
      GetsClaim(w, m.(claimGets := {}, claimCreates := {}), g)
  {
    DisksDoneIff(w, m, g);
    assert FilesystemOwned(w, g) <==> exists f :: f in w.filesystems && f.name == g && ClaimOwned(f.owners, g);
  }

  // ---- claims ----

  lemma {:induction false} DevicesAre(disks: seq<LocalDisk>, g: string)
    ensures Devices(GroupDisks(disks, g)) == CandidateDevices(disks, g)
  {
    if disks != [] {
      DevicesAre(disks[1..], g);
      var rest := GroupDisks(disks[1..], g);
      assert Devices([disks[0]] + rest) == [disks[0].device] + Devices(rest);
    }
  }

  // The status of a claim made by the migration: these types, each True and marked, and no other.
  predicate AllMarked(cs: seq<Condition>, hasClass: bool, now: int) {
    && Unique(cs)
    && (forall c :: c in cs ==> c.status == True && c.reason == MigrationComplete && c.since == now)
    && (forall kind :: Find(cs, kind).Some? <==>
          kind in {DeviceValidated, LocalDiskCreated, FileSystemCreated, Ready} || (kind == StorageClassCreated && hasClass))
  }

  lemma StatusIsMarked(disks: nat, hasClass: bool, now: int)
    ensures AllMarked(MigratedConditions(disks, hasClass, now), hasClass, now)
  {
    var cs := MigratedConditions(disks, hasClass, now);
    MigrationProofs.MigratedStatus(disks, hasClass, now);
    forall kind ensures Find(cs, kind).Some? <==>
      kind in {DeviceValidated, LocalDiskCreated, FileSystemCreated, Ready} || (kind == StorageClassCreated && hasClass)
    {
      if Find(cs, kind).Some? {
        assert Find(cs, kind).value in cs;
      }
    }
  }

  // Exactly the names with a candidate that get that far have a new claim, for the candidates' devices;
  // claims that exist stay as they are.
  lemma ClaimOutcome(w: World, m: Mishaps, g: string)
    ensures var cs := Migrate(w, m).claims;
      && (g in cs <==> g in w.claims || (HasCandidate(w, g) && GetsClaim(w, m, g)))
      && (g in w.claims ==> cs[g] == w.claims[g])
      && (g in cs && g !in w.claims ==>
            && cs[g] == Claim(g, CandidateDevices(w.disks, g), false, false, cs[g].conditions,
                          map[Migrated := "true", MigrationSource := "v1.0"])
            && if g in m.statusUpdates then cs[g].conditions == [] else AllMarked(cs[g].conditions, g in w.classes, m.now))
  {
    DisksDoneIff(w, m, g);
    MigrationProofs.ClaimAfter(w, m, g);
    assert Claimed(w, g, m) <==> GetsClaim(w, m, g);
    DevicesAre(w.disks, g);
    StatusIsMarked(|GroupDisks(w.disks, g)|, g in w.classes, m.now);
  }

  // A run changes nothing but these four, and adds or removes no disk, filesystem or class.
  lemma NothingElse(w: World, m: Mishaps)
    ensures var w' := Migrate(w, m);
      && w' == w.(claims := w'.claims, disks := w'.disks, filesystems := w'.filesystems, classes := w'.classes)
      && |w'.disks| == |w.disks| && |w'.filesystems| == |w.filesystems| && w'.classes.Keys == w.classes.Keys
  {
  }
}
