/** What one undisturbed reconcile does to a claim that is being deleted, told by the fields of the
    objects it finds: what blocks, what does not, and what is taken apart next. */
module DeletionOutcomes {
  import opened Conditions
  import opened Cluster
  import opened ReconcilerSpec
  import opened ReadySoundness
  import opened WriteContract
  import opened Runs
  import opened Outcomes
  import Backoff
  import ClaimLife
  import DeletionTermination
  import Retries

  // ---- the storage class is deleted only when no volume holds it ----

  // Over whole runs, whatever calls fail: when a storage class is deleted, every volume of it is on
  // its way out or neither bound nor released.
  lemma DeletedClassIsUnused(w: World, moves: seq<Move>, e: Entry)
    requires WellFormed(w) && Run(w, moves) && e in Trace(w, moves) && e.action.DeletedClass?
    ensures forall v :: v in e.before.volumes && v.storageClass == e.action.claim && !v.deleting ==>
      v.phase != Bound && v.phase != Released
  {
    var c := ClaimLife.TraceAllowed(w, moves, e);
  }

  // ---- one undisturbed reconcile ----

  // The claim is being deleted and says so.
  predicate Announced(w: World, n: string) {
    n in w.claims && TearingDown(w.claims[n]) && HasReason(w.claims[n].conditions, Ready, DeletionRequested)
  }

  // The condition was taken off True, and nothing else changed.
  predicate TakenOff(w: World, w': World, n: string, kind: ConditionType) {
    OnlyStatus(w, w', n, {kind}) && !IsTrue(w'.claims[n].conditions, kind)
  }

  lemma BlockOutcome(s: State, c: Claim, reason: Reason, message: Message)
    requires s.faults == [] && Snapshot(s, c)
    ensures var r := Block(s, c, reason, message);
      && r.out.Delayed? && OnlyStatus(s.world, r.s.world, c.name, {DeletionBlocked})
      && (HasReason(c.conditions, DeletionBlocked, MigrationComplete)
          || HasReason(r.s.world.claims[c.name].conditions, DeletionBlocked, reason))
  {
    if !Settled(c, DeletionBlocked, True, reason, message) {
      OneNews(s, c, Condition(DeletionBlocked, True, reason, message, s.now));
    } else {
      assert s.world.claims[c.name := c] == s.world.claims;
    }
  }

  lemma IsDeletion(s: State, c: Claim)
    requires s.faults == [] && Snapshot(s, c) && TearingDown(c)
    ensures Reconcile(s, c.name) == HandleDeletion(s, c)
    ensures HasReason(c.conditions, Ready, DeletionRequested) ==> MarkDeletion(s, c) == Step(s, Continue)
  {
    DeletionNeverIdle(s, c);
  }

  // A deletion is first announced, and nothing else happens.
  lemma DeletionIsAnnounced(w: World, n: string, pick: nat, now: int)
    requires WellFormed(w) && n in w.claims && TearingDown(w.claims[n]) && !Announced(w, n)
    ensures var r := Reconcile(State(w, [], [], pick, now), n);
      && r.out == Requeue && OnlyStatus(w, r.s.world, n, {Ready}) && Announced(r.s.world, n)
      && !IsTrue(r.s.world.claims[n].conditions, Ready)
  {
    var s, c := State(w, [], [], pick, now), w.claims[n];
    IsDeletion(s, c);
    OneNews(s, c, Condition(Ready, False, DeletionRequested, DeletionNotice, now));
  }

  // A bound or released volume of the class that is not on its way out blocks: the deletion waits
  // and says why, and nothing is deleted.
  lemma VolumesBlock(w: World, n: string, pick: nat, now: int, v: PersistentVolume)
    requires WellFormed(w) && Announced(w, n) && IsTrue(w.claims[n].conditions, StorageClassCreated)
    requires v in w.volumes && v.storageClass == n && !v.deleting && (v.phase == Bound || v.phase == Released)
    ensures var r := Reconcile(State(w, [], [], pick, now), n);
      && r.out.Delayed? && OnlyStatus(w, r.s.world, n, {DeletionBlocked})
      && (HasReason(w.claims[n].conditions, DeletionBlocked, MigrationComplete)
          || HasReason(r.s.world.claims[n].conditions, DeletionBlocked, StorageClassInUse))
  {
    var s, c := State(w, [], [], pick, now), w.claims[n];
    IsDeletion(s, c);
    BlockOutcome(s, c, StorageClassInUse, InUseMessage(Blockers(w.volumes, n)));
    assert HandleDeletion(s, c) == CheckClassUsage(s, c);
  }

  // The volumes that hold the class.
  function Holders(volumes: seq<PersistentVolume>, n: string): nat {
    if volumes == [] then 0
    else
      var v := volumes[0];
      (if v.storageClass == n && !v.deleting && (v.phase == Bound || v.phase == Released) then 1 else 0) + Holders(volumes[1..], n)
  }

  // The reason given names the first five of them, and says how many more there are.
  lemma {:induction false} HoldersAreShown(volumes: seq<PersistentVolume>, n: string)
    ensures var blockers := Blockers(volumes, n); var m := InUseMessage(blockers);
      && |blockers| == Holders(volumes, n)
      && (forall i :: 0 <= i < |blockers| ==> exists v :: v in volumes && v.storageClass == n && blockers[i] == (v.name, v.phase))
      && m.VolumesInUse? && m.shown <= blockers
      && |m.shown| == (if Holders(volumes, n) > 5 then 5 else Holders(volumes, n)) && m.more == Holders(volumes, n) - |m.shown|
  {
    if volumes != [] {
      HoldersAreShown(volumes[1..], n);
      var v := volumes[0];
      assert v in volumes && forall u :: u in volumes[1..] ==> u in volumes;
    }
  }

  // No volume keeps the class: each is of another class, on its way out, or neither bound nor released.
  predicate NoVolumeBlocks(w: World, n: string)
    requires n in w.claims
  {
    IsTrue(w.claims[n].conditions, StorageClassCreated) ==>
      forall v :: v in w.volumes ==> v.storageClass != n || v.deleting || (v.phase != Bound && v.phase != Released)
  }

  lemma UsagePasses(s: State, c: Claim)
    requires s.faults == [] && Snapshot(s, c) && NoVolumeBlocks(s.world, c.name)
    ensures CheckClassUsage(s, c) == Step(s, Continue)
  {
  }

  // With no such volume, a filesystem without the label blocks in the same way.
  lemma LabelBlocks(w: World, n: string, pick: nat, now: int, f: Filesystem)
    requires WellFormed(w) && Announced(w, n) && NoVolumeBlocks(w, n) && IsTrue(w.claims[n].conditions, FileSystemCreated)
    requires f in w.filesystems && OwnedBy(f.owners, n) && AllowDelete !in f.labels
    requires forall g :: g in w.filesystems && OwnedBy(g.owners, n) ==> g == f
    ensures var r := Reconcile(State(w, [], [], pick, now), n);
      && r.out.Delayed? && OnlyStatus(w, r.s.world, n, {DeletionBlocked})
      && (HasReason(w.claims[n].conditions, DeletionBlocked, MigrationComplete)
          || HasReason(r.s.world.claims[n].conditions, DeletionBlocked, FileSystemLabelNotPresent))
  {
    var s, c := State(w, [], [], pick, now), w.claims[n];
    IsDeletion(s, c);
    UsagePasses(s, c);
    OnlyOneOwned(w.filesystems, n, f);
    BlockOutcome(s, c, FileSystemLabelNotPresent, LabelMissing(f.name));
    assert HandleDeletion(s, c) == CheckDeletionLabel(s, c);
  }

  lemma SecondOwned(filesystems: seq<Filesystem>, n: string, f: Filesystem, g: Filesystem)
    requires f in filesystems && OwnedBy(f.owners, n) && g in filesystems && OwnedBy(g.owners, n) && f != g
    ensures |OwnedFilesystems(filesystems, n)| > 1
  {
    assert f in OwnedFilesystems(filesystems, n) && g in OwnedFilesystems(filesystems, n);
  }

  // A second owned filesystem is an error, and nothing is done.
  lemma SecondFilesystemFails(w: World, n: string, pick: nat, now: int, f: Filesystem, g: Filesystem)
    requires WellFormed(w) && Announced(w, n) && NoVolumeBlocks(w, n) && IsTrue(w.claims[n].conditions, FileSystemCreated)
    requires f in w.filesystems && OwnedBy(f.owners, n) && g in w.filesystems && OwnedBy(g.owners, n) && f != g
    ensures var r := Reconcile(State(w, [], [], pick, now), n);
      r.out == Failed && r.s.world == w
  {
    var s, c := State(w, [], [], pick, now), w.claims[n];
    IsDeletion(s, c);
    UsagePasses(s, c);
    SecondOwned(w.filesystems, n, f, g);
    assert HandleDeletion(s, c) == CheckDeletionLabel(s, c);
  }

  lemma {:induction false} OwnedNamesDistinct(filesystems: seq<Filesystem>, n: string)
    requires DistinctFilesystemNames(filesystems)
    ensures DistinctFilesystemNames(OwnedFilesystems(filesystems, n))
  {
    if filesystems != [] {
      var rest := filesystems[1..];
      OwnedNamesDistinct(rest, n);
      var owned := OwnedFilesystems(rest, n);
      forall i | 0 <= i < |owned| ensures owned[i].name != filesystems[0].name {
        assert owned[i] in rest;
        var j :| 0 <= j < |rest| && rest[j] == owned[i];
        assert filesystems[j + 1] == owned[i];
      }
    }
  }

  lemma FirstTwo(filesystems: seq<Filesystem>)
    requires |filesystems| > 1 && DistinctFilesystemNames(filesystems)
    ensures filesystems[0] in filesystems && filesystems[1] in filesystems && filesystems[0] != filesystems[1]
  {
  }

  lemma OnlyOneOwned(filesystems: seq<Filesystem>, n: string, f: Filesystem)
    requires DistinctFilesystemNames(filesystems) && f in filesystems && OwnedBy(f.owners, n)
    requires forall g :: g in filesystems && OwnedBy(g.owners, n) ==> g == f
    ensures OwnedFilesystems(filesystems, n) == [f]
  {
    var owned := OwnedFilesystems(filesystems, n);
    OwnedNamesDistinct(filesystems, n);
    assert f in owned;
    assert owned[0] in owned;
    if |owned| > 1 {
      FirstTwo(owned);
    }
  }

  // Every owned filesystem has the label, and there are not two.
  predicate NoLabelMissing(w: World, n: string)
    requires n in w.claims
  {
    IsTrue(w.claims[n].conditions, FileSystemCreated) ==>
      && (forall f :: f in w.filesystems && OwnedBy(f.owners, n) ==> AllowDelete in f.labels)
      && (forall f, g :: f in w.filesystems && g in w.filesystems && OwnedBy(f.owners, n) && OwnedBy(g.owners, n) ==> f == g)
  }

  predicate OwnsFilesystem(w: World, n: string) {
    exists f :: f in w.filesystems && OwnedBy(f.owners, n)
  }

  predicate OwnsDisk(w: World, n: string) {
    exists d :: d in w.disks && OwnedBy(d.owners, n)
  }

  lemma NothingOwned(w: World, n: string)
    ensures OwnedFilesystems(w.filesystems, n) == [] <==> !OwnsFilesystem(w, n)
    ensures OwnedDisks(w.disks, n) == [] <==> !OwnsDisk(w, n)
  {
    if OwnedFilesystems(w.filesystems, n) != [] {
      assert OwnedFilesystems(w.filesystems, n)[0] in OwnedFilesystems(w.filesystems, n);
    }
    if OwnedDisks(w.disks, n) != [] {
      assert OwnedDisks(w.disks, n)[0] in OwnedDisks(w.disks, n);
    }
  }

  // The claim's filesystem and nothing else starts terminating.
  predicate FilesystemEnds(w: World, w': World, n: string) {
    && w' == w.(filesystems := w'.filesystems) && |w'.filesystems| == |w.filesystems|
    && forall i :: 0 <= i < |w.filesystems| ==>
         w'.filesystems[i] == if OwnedBy(w.filesystems[i].owners, n) then w.filesystems[i].(terminating := true) else w.filesystems[i]
  }

  predicate DisksEnd(w: World, w': World, n: string) {
    && w' == w.(disks := w'.disks) && |w'.disks| == |w.disks|
    && forall i :: 0 <= i < |w.disks| ==>
         w'.disks[i] == if OwnedBy(w.disks[i].owners, n) then w.disks[i].(terminating := true) else w.disks[i]
  }

  // What an announced deletion that nothing blocks does next: it deletes the class, then the
  // filesystem, then all disks, each time to take the condition off True once the objects are gone,
  // and then lets the claim go.
  predicate TakesApart(w: World, w': World, n: string)
    requires n in w.claims
  {
    var cs := w.claims[n].conditions;
    if IsTrue(cs, StorageClassCreated) then
      if n in w.classes then w' == w.(classes := w.classes - {n}) else TakenOff(w, w', n, StorageClassCreated)
    else if IsTrue(cs, FileSystemCreated) then
      if OwnsFilesystem(w, n) then FilesystemEnds(w, w', n) else TakenOff(w, w', n, FileSystemCreated)
    else if IsTrue(cs, LocalDiskCreated) then
      if OwnsDisk(w, n) then DisksEnd(w, w', n) else TakenOff(w, w', n, LocalDiskCreated)
    else w' == w.(claims := w.claims - {n})
  }

  lemma ChecksPass(s: State, c: Claim)
    requires s.faults == [] && Snapshot(s, c) && DistinctFilesystemNames(s.world.filesystems)
    requires NoVolumeBlocks(s.world, c.name) && NoLabelMissing(s.world, c.name)
    ensures UsageChecked(s, c) && LabelChecked(s, c)
  {
    var owned := OwnedFilesystems(s.world.filesystems, c.name);
    if IsTrue(c.conditions, FileSystemCreated) && owned != [] {
      assert owned[0] in owned;
      OnlyOneOwned(s.world.filesystems, c.name, owned[0]);
    }
  }

  lemma ConditionGone(s: State, c: Claim, kind: ConditionType, reason: Reason, message: Message)
    requires s.faults == [] && Snapshot(s, c) && IsTrue(c.conditions, kind)
    ensures var u := UpdateIfChanged(s, c, kind, False, reason, message);
      u.out == Requeue && TakenOff(s.world, u.s.world, c.name, kind)
  {
    TrueIsFirst(c.conditions, kind);
    OneNews(s, c, Condition(kind, False, reason, message, s.now));
  }

  lemma FilesystemStageEnds(s: State, c: Claim)
    requires s.faults == [] && Snapshot(s, c) && DistinctFilesystemNames(s.world.filesystems)
    requires IsTrue(c.conditions, FileSystemCreated) && NoLabelMissing(s.world, c.name)
    ensures var r := DeleteFilesystemStage(s, c);
      if OwnsFilesystem(s.world, c.name) then r.out == Delayed(45_000_000_000) && FilesystemEnds(s.world, r.s.world, c.name)
      else r.out == Requeue && TakenOff(s.world, r.s.world, c.name, FileSystemCreated)
  {
    var w, owned := s.world, OwnedFilesystems(s.world.filesystems, c.name);
    NothingOwned(w, c.name);
    if OwnsFilesystem(w, c.name) {
      forall i | 0 <= i < |w.filesystems|
        ensures w.filesystems[i].name == owned[0].name <==> OwnedBy(w.filesystems[i].owners, c.name)
      {
        assert owned[0] in owned;
        SameName(w.filesystems, owned[0], i);
      }
    } else {
      ConditionGone(s, c, FileSystemCreated, FilesystemDeleted, FilesystemGone);
    }
  }

  lemma SameName(filesystems: seq<Filesystem>, f: Filesystem, i: nat)
    requires DistinctFilesystemNames(filesystems) && f in filesystems && i < |filesystems|
    ensures filesystems[i].name == f.name <==> filesystems[i] == f
  {
    var j :| 0 <= j < |filesystems| && filesystems[j] == f;
    assert filesystems[i].name == f.name ==> i == j;
  }

  // Deleting disks one after the other makes those of the given names terminate, and no others.
  lemma {:induction false} DisksTerminated(s: State, c: Claim, disks: seq<LocalDisk>, i: nat)
    requires s.faults == [] && i < |s.world.disks|
    ensures var r := DeleteAll(s, c, disks); var d := s.world.disks[i];
      && r.out == Delayed(DISK_WAIT) && |r.s.world.disks| == |s.world.disks|
      && r.s.world.disks[i] == if HasDisk(disks, d.name) then d.(terminating := true) else d
    decreases |disks|
  {
    if disks != [] {
      assert disks == [disks[0]] + disks[1..];
      DisksTerminated(DeleteDisk(s, c.name, disks[0]).s, c, disks[1..], i);
    }
  }

  lemma NamesAreOwned(disks: seq<LocalDisk>, n: string, i: nat)
    requires DistinctDiskNames(disks) && i < |disks|
    ensures HasDisk(OwnedDisks(disks, n), disks[i].name) <==> OwnedBy(disks[i].owners, n)
  {
    if OwnedBy(disks[i].owners, n) {
      assert disks[i] in OwnedDisks(disks, n);
    }
    if HasDisk(OwnedDisks(disks, n), disks[i].name) {
      var d :| d in OwnedDisks(disks, n) && d.name == disks[i].name;
      var j :| 0 <= j < |disks| && disks[j] == d;
      assert i == j;
    }
  }

  lemma DiskStageEnds(s: State, c: Claim)
    requires s.faults == [] && Snapshot(s, c) && DistinctDiskNames(s.world.disks)
    requires IsTrue(c.conditions, LocalDiskCreated)
    ensures var r := DeleteDisksStage(s, c);
      if OwnsDisk(s.world, c.name) then r.out == Delayed(30_000_000_000) && DisksEnd(s.world, r.s.world, c.name)
      else r.out == Requeue && TakenOff(s.world, r.s.world, c.name, LocalDiskCreated)
  {
    var w, owned := s.world, OwnedDisks(s.world.disks, c.name);
    NothingOwned(w, c.name);
    if OwnsDisk(w, c.name) {
      assert w.disks != [];
      DeletionTermination.AllTerminated(s, c, owned);
      DisksTerminated(s, c, owned, 0);
      var w' := DeleteDisksStage(s, c).s.world;
      forall i | 0 <= i < |w.disks|
        ensures w'.disks[i] == if OwnedBy(w.disks[i].owners, c.name) then w.disks[i].(terminating := true) else w.disks[i]
      {
        DisksTerminated(s, c, owned, i);
        NamesAreOwned(w.disks, c.name, i);
      }
    } else {
      ConditionGone(s, c, LocalDiskCreated, LocalDiskDeleted, DisksGone);
    }
  }

  // What blocks a deletion is thus all that blocks it.
  lemma UnblockedGoesOn(w: World, n: string, pick: nat, now: int)
    requires WellFormed(w) && Announced(w, n) && NoVolumeBlocks(w, n) && NoLabelMissing(w, n)
    ensures TakesApart(w, Reconcile(State(w, [], [], pick, now), n).s.world, n)
  {
    var s, c := State(w, [], [], pick, now), w.claims[n];
    IsDeletion(s, c);
    ChecksPass(s, c);
    DeletionTermination.ChecksPass(s, c);
    DeletionTermination.TeardownStage(s, c);
    if IsTrue(c.conditions, StorageClassCreated) {
      if n !in w.classes {
        ConditionGone(s, c, StorageClassCreated, StorageClassDeleted, ClassGone);
      }
    } else if IsTrue(c.conditions, FileSystemCreated) {
      FilesystemStageEnds(s, c);
    } else if IsTrue(c.conditions, LocalDiskCreated) {
      DiskStageEnds(s, c);
    }
  }

  // An undisturbed reconcile of an announced deletion deletes the storage class exactly if the claim
  // still has it, no volume holds it and the label is where it has to be.
  lemma ClassGoesIff(w: World, n: string, pick: nat, now: int)
    requires WellFormed(w) && Announced(w, n) && n in w.classes
    ensures n !in Reconcile(State(w, [], [], pick, now), n).s.world.classes <==>
      IsTrue(w.claims[n].conditions, StorageClassCreated) && NoVolumeBlocks(w, n) && NoLabelMissing(w, n)
  {
    var cs := w.claims[n].conditions;
    if !NoVolumeBlocks(w, n) {
      var v :| v in w.volumes && v.storageClass == n && !v.deleting && (v.phase == Bound || v.phase == Released);
      VolumesBlock(w, n, pick, now, v);
    } else if !NoLabelMissing(w, n) {
      LabelStops(w, n, pick, now);
    } else {
      UnblockedGoesOn(w, n, pick, now);
    }
  }

  lemma LabelStops(w: World, n: string, pick: nat, now: int)
    requires WellFormed(w) && Announced(w, n) && NoVolumeBlocks(w, n) && !NoLabelMissing(w, n)
    ensures Reconcile(State(w, [], [], pick, now), n).s.world.classes == w.classes
  {
    if f, g :| f in w.filesystems && g in w.filesystems && OwnedBy(f.owners, n) && OwnedBy(g.owners, n) && f != g {
      SecondFilesystemFails(w, n, pick, now, f, g);
    } else {
      var f :| f in w.filesystems && OwnedBy(f.owners, n) && AllowDelete !in f.labels;
      LabelBlocks(w, n, pick, now, f);
    }
  }

  // ---- failing calls ----

  function Calm(s: State): State {
    s.(faults := [])
  }

  // A stage that does not fail does what it does undisturbed.
  predicate ShowsFailure(r: Step, calm: Step) {
    r.out == Failed || (r.out == calm.out && Calm(r.s) == calm.s)
  }

  lemma MarkShows(s: State, c: Claim)
    ensures ShowsFailure(MarkDeletion(s, c), MarkDeletion(Calm(s), c))
  {
  }

  lemma BlockShows(s: State, c: Claim, reason: Reason, message: Message)
    ensures ShowsFailure(Block(s, c, reason, message), Block(Calm(s), c, reason, message))
  {
  }

  lemma UsageShows(s: State, c: Claim)
    ensures ShowsFailure(CheckClassUsage(s, c), CheckClassUsage(Calm(s), c))
  {
    BlockShows(Next(s), c, StorageClassInUse, InUseMessage(Blockers(s.world.volumes, c.name)));
  }

  lemma LabelShows(s: State, c: Claim)
    ensures ShowsFailure(CheckDeletionLabel(s, c), CheckDeletionLabel(Calm(s), c))
  {
    var owned := OwnedFilesystems(s.world.filesystems, c.name);
    if |owned| == 1 {
      BlockShows(Next(s), c, FileSystemLabelNotPresent, LabelMissing(owned[0].name));
    }
  }

  lemma {:induction false} DeleteAllShows(s: State, c: Claim, disks: seq<LocalDisk>)
    ensures ShowsFailure(DeleteAll(s, c, disks), DeleteAll(Calm(s), c, disks))
    decreases |disks|
  {
    if disks != [] {
      var d := DeleteDisk(s, c.name, disks[0]);
      DeleteAllShows(DeleteDisk(Calm(s), c.name, disks[0]).s, c, disks[1..]);
      if d.ok {
        assert Calm(d.s) == DeleteDisk(Calm(s), c.name, disks[0]).s;
        DeleteAllShows(d.s, c, disks[1..]);
      }
    }
  }

  lemma ClassShows(s: State, c: Claim)
    ensures ShowsFailure(DeleteClassStage(s, c), DeleteClassStage(Calm(s), c))
  {
  }

  lemma FilesystemShows(s: State, c: Claim)
    ensures ShowsFailure(DeleteFilesystemStage(s, c), DeleteFilesystemStage(Calm(s), c))
  {
  }

  lemma DisksShow(s: State, c: Claim)
    ensures ShowsFailure(DeleteDisksStage(s, c), DeleteDisksStage(Calm(s), c))
  {
    DeleteAllShows(Next(s), c, OwnedDisks(s.world.disks, c.name));
  }

  lemma TeardownShows(s: State, c: Claim)
    ensures ShowsFailure(Teardown(s, c), Teardown(Calm(s), c))
  {
    var a := DeleteClassStage(s, c);
    ClassShows(s, c);
    if a.out == Continue {
      var b := DeleteFilesystemStage(a.s, c);
      FilesystemShows(a.s, c);
      if b.out == Continue {
        DisksShow(b.s, c);
      }
    }
  }

  // A deletion never hides a failed call: a reconcile that does not fail has done what an undisturbed one does.
  lemma DeletionShowsFailures(s: State, n: string)
    requires n in s.world.claims && TearingDown(s.world.claims[n]) && Reconcile(s, n).out != Failed
    ensures var calm := Reconcile(Calm(s), n);
      && Reconcile(s, n).out == calm.out
      && Reconcile(s, n).s.world == calm.s.world && Reconcile(s, n).s.log == calm.s.log
  {
    var c := s.world.claims[n];
    var t := Next(s);
    DeletionNeverIdle(t, c);
    DeletionNeverIdle(Calm(s), c);
    assert Calm(t) == Calm(s);
    DeletionShows(t, c);
  }

  lemma DeletionShows(s: State, c: Claim)
    ensures ShowsFailure(HandleDeletion(s, c), HandleDeletion(Calm(s), c))
  {
    var m := MarkDeletion(s, c);
    MarkShows(s, c);
    if m.out == Continue {
      var u := CheckClassUsage(m.s, c);
      UsageShows(m.s, c);
      if u.out == Continue {
        LabelShows(u.s, c);
        TeardownShows(CheckDeletionLabel(u.s, c).s, c);
      }
    }
  }
}
