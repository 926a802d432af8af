/** A deletion that nothing blocks ends: every undisturbed reconcile lowers a measure that
    starts at eight or less, and at zero the claim is gone. */
module DeletionTermination {
  import opened Conditions
  import opened Cluster
  import opened ReconcilerSpec
  import opened ReadySoundness
  import opened WriteContract
  import Runs

  // ---- the measure ----

  function Part(marked: bool, present: bool): nat {
    if !marked then 0 else if present then 2 else 1
  }

  // What is left to do for a claim that is being deleted.
  function Remaining(w: World, n: string): nat {
    if n !in w.claims then 0
    else
      var cs := w.claims[n].conditions;
      (if HasReason(cs, Ready, DeletionRequested) then 0 else 1)
      + Part(IsTrue(cs, StorageClassCreated), n in w.classes)
      + Part(IsTrue(cs, FileSystemCreated), OwnedFilesystems(w.filesystems, n) != [])
      + Part(IsTrue(cs, LocalDiskCreated), OwnedDisks(w.disks, n) != [])
      + 1
  }

  lemma AtMostEight(w: World, n: string)
    ensures Remaining(w, n) <= 8
    ensures Remaining(w, n) == 0 <==> n !in w.claims
  {
  }

  // Nothing blocks the deletion of the claim.
  predicate Deletable(w: World, n: string) {
    && WellFormed(w)
    && (n in w.claims ==>
          var owned := OwnedFilesystems(w.filesystems, n);
          TearingDown(w.claims[n]) && !ClassInUse(w, n) && |owned| <= 1 && (owned != [] ==> AllowDelete in owned[0].labels))
  }

  // What happens between two reconciles: deleted objects disappear, none is made for the claim,
  // its status is left alone, and still nothing blocks.
  predicate Disappearing(t: World, w': World, n: string) {
    && Deletable(w', n)
    && (n in w'.claims ==> n in t.claims && w'.claims[n].conditions == t.claims[n].conditions)
    && (n in w'.classes ==> n in t.classes)
    && (forall f' :: f' in OwnedFilesystems(w'.filesystems, n) ==>
          exists f :: f in OwnedFilesystems(t.filesystems, n) && f.name == f'.name && !f.terminating)
    && (forall d' :: d' in OwnedDisks(w'.disks, n) ==>
          exists d :: d in OwnedDisks(t.disks, n) && d.name == d'.name && !d.terminating)
  }

  function Undisturbed(w: World, pick: nat, now: int): State {
    State(w, [], [], pick, now)
  }

  // One undisturbed reconcile and what happens until the next.
  ghost predicate DeletionRound(w: World, w': World, n: string) {
    exists pick: nat, now: int :: Disappearing(Reconcile(Undisturbed(w, pick, now), n).s.world, w', n)
  }

  // ---- which stage acts ----

  lemma ChecksPass(s: State, c: Claim)
    requires s.faults == [] && TearingDown(c) && UsageChecked(s, c) && LabelChecked(s, c)
    requires HasReason(c.conditions, Ready, DeletionRequested)
    ensures HandleDeletion(s, c) == Teardown(s, c)
  {
    assert CheckClassUsage(s, c) == Step(s, Continue);
    assert CheckDeletionLabel(s, c) == Step(s, Continue);
  }

  lemma TeardownStage(s: State, c: Claim)
    requires s.faults == [] && Unique(c.conditions)
    ensures Teardown(s, c) ==
      if IsTrue(c.conditions, StorageClassCreated) then DeleteClassStage(s, c)
      else if IsTrue(c.conditions, FileSystemCreated) then DeleteFilesystemStage(s, c)
      else if IsTrue(c.conditions, LocalDiskCreated) then DeleteDisksStage(s, c)
      else RemoveFinalizerStage(s, c)
  {
    TrueIsFirst(c.conditions, StorageClassCreated);
    TrueIsFirst(c.conditions, FileSystemCreated);
    TrueIsFirst(c.conditions, LocalDiskCreated);
    if IsTrue(c.conditions, LocalDiskCreated) && OwnedDisks(s.world.disks, c.name) != [] {
      DeleteAllStops(s, c, OwnedDisks(s.world.disks, c.name));
    }
  }

  // A single new condition changes only its own type.
  lemma OnePatched(conditions: seq<Condition>, x: Condition, kind: ConditionType)
    requires Unique(conditions)
    ensures Find(UpdatedAll(conditions, [x]), kind) == if kind == x.kind then Some(x) else Find(conditions, kind)
    ensures IsTrue(UpdatedAll(conditions, [x]), kind) <==> if kind == x.kind then x.status == True else IsTrue(conditions, kind)
  {
    var news := UpdatedAll(conditions, [x]);
    assert news == Updated(conditions, x) by {
      assert [x][1..] == [];
      assert UpdatedAll(Updated(conditions, x), []) == Updated(conditions, x);
    }
    UpdatedFind(conditions, x, kind);
    UpdatedUnique(conditions, x);
    TrueIsFirst(conditions, kind);
    TrueIsFirst(news, kind);
  }

  // ---- every disk of the claim is terminated ----

  lemma {:induction false} AllTerminated(s: State, c: Claim, disks: seq<LocalDisk>)
    requires s.faults == []
    ensures var t := DeleteAll(s, c, disks).s;
      t.world == s.world.(disks := t.world.disks) && |t.world.disks| == |s.world.disks|
    decreases |disks|
  {
    if disks != [] {
      AllTerminated(DeleteDisk(s, c.name, disks[0]).s, c, disks[1..]);
    }
  }

  // A disk of one of the names given is terminating in the end, and keeps its owners.
  lemma {:induction false} TerminatedAt(s: State, c: Claim, disks: seq<LocalDisk>, i: nat)
    requires s.faults == [] && i < |s.world.disks|
    ensures var ds := DeleteAll(s, c, disks).s.world.disks;
      && |ds| == |s.world.disks| && ds[i].name == s.world.disks[i].name && ds[i].owners == s.world.disks[i].owners
      && (s.world.disks[i].terminating || HasDisk(disks, s.world.disks[i].name) ==> ds[i].terminating)
    decreases |disks|
  {
    if disks != [] {
      assert disks == [disks[0]] + disks[1..];
      TerminatedAt(DeleteDisk(s, c.name, disks[0]).s, c, disks[1..], i);
    }
  }

  lemma OwnedAllTerminated(s: State, c: Claim, d: LocalDisk)
    requires s.faults == []
    requires d in OwnedDisks(DeleteAll(s, c, OwnedDisks(s.world.disks, c.name)).s.world.disks, c.name)
    ensures d.terminating
  {
    var owned := OwnedDisks(s.world.disks, c.name);
    var ds := DeleteAll(s, c, owned).s.world.disks;
    AllTerminated(s, c, owned);
    var i :| 0 <= i < |ds| && ds[i] == d;
    TerminatedAt(s, c, owned, i);
    assert s.world.disks[i] in owned;
    assert HasDisk(owned, s.world.disks[i].name);
  }

  lemma OwnedFilesystemTerminated(s: State, n: string, f: Filesystem, g: Filesystem)
    requires s.faults == [] && OwnedFilesystems(s.world.filesystems, n) == [f]
    requires g in OwnedFilesystems(DeleteFilesystem(s, n, f).s.world.filesystems, n)
    ensures g.terminating
  {
    var fs := DeleteFilesystem(s, n, f).s.world.filesystems;
    var i :| 0 <= i < |fs| && fs[i] == g;
    assert s.world.filesystems[i] in OwnedFilesystems(s.world.filesystems, n);
  }

  // ---- the measure falls ----

  lemma MarkingFalls(s: State, c: Claim, w': World)
    requires s.faults == [] && Snapshot(s, c) && TearingDown(c) && !HasReason(c.conditions, Ready, DeletionRequested)
    requires Disappearing(HandleDeletion(s, c).s.world, w', c.name)
    ensures Remaining(w', c.name) < Remaining(s.world, c.name)
  {
    var x := Condition(Ready, False, DeletionRequested, DeletionNotice, s.now);
    assert HandleDeletion(s, c) == PatchOutcome(PatchStatus(s, c.name, [x]));
    OnePatched(c.conditions, x, Ready);
    OnePatched(c.conditions, x, StorageClassCreated);
    OnePatched(c.conditions, x, FileSystemCreated);
    OnePatched(c.conditions, x, LocalDiskCreated);
    PartsDoNotGrow(HandleDeletion(s, c).s.world, w', c.name);
  }

  // Between reconciles nothing of the claim comes back.
  lemma PartsDoNotGrow(t: World, w': World, n: string)
    requires Disappearing(t, w', n)
    ensures OwnedFilesystems(t.filesystems, n) == [] ==> OwnedFilesystems(w'.filesystems, n) == []
    ensures OwnedDisks(t.disks, n) == [] ==> OwnedDisks(w'.disks, n) == []
    ensures (forall f :: f in OwnedFilesystems(t.filesystems, n) ==> f.terminating) ==> OwnedFilesystems(w'.filesystems, n) == []
    ensures (forall d :: d in OwnedDisks(t.disks, n) ==> d.terminating) ==> OwnedDisks(w'.disks, n) == []
  {
    if OwnedFilesystems(w'.filesystems, n) != [] {
      assert OwnedFilesystems(w'.filesystems, n)[0] in OwnedFilesystems(w'.filesystems, n);
    }
    if OwnedDisks(w'.disks, n) != [] {
      assert OwnedDisks(w'.disks, n)[0] in OwnedDisks(w'.disks, n);
    }
  }

  lemma PatchFalls(s: State, c: Claim, x: Condition, w': World)
    requires s.faults == [] && Snapshot(s, c) && HasReason(c.conditions, Ready, DeletionRequested)
    requires x.status == False && x.kind in {StorageClassCreated, FileSystemCreated, LocalDiskCreated}
    requires IsTrue(c.conditions, x.kind)
    requires Disappearing(PatchStatus(s, c.name, [x]).s.world, w', c.name)
    ensures Remaining(w', c.name) < Remaining(s.world, c.name)
  {
    OnePatched(c.conditions, x, Ready);
    OnePatched(c.conditions, x, StorageClassCreated);
    OnePatched(c.conditions, x, FileSystemCreated);
    OnePatched(c.conditions, x, LocalDiskCreated);
    PartsDoNotGrow(PatchStatus(s, c.name, [x]).s.world, w', c.name);
  }

  lemma ClassFalls(s: State, c: Claim, w': World)
    requires s.faults == [] && Snapshot(s, c) && TearingDown(c) && HasReason(c.conditions, Ready, DeletionRequested)
    requires IsTrue(c.conditions, StorageClassCreated)
    requires Disappearing(DeleteClassStage(s, c).s.world, w', c.name)
    ensures Remaining(w', c.name) < Remaining(s.world, c.name)
  {
    if c.name in s.world.classes {
      PartsDoNotGrow(DeleteClassStage(s, c).s.world, w', c.name);
    } else {
      TrueIsFirst(c.conditions, StorageClassCreated);
      PatchFalls(s, c, Condition(StorageClassCreated, False, StorageClassDeleted, ClassGone, s.now), w');
    }
  }

  lemma FilesystemFalls(s: State, c: Claim, w': World)
    requires s.faults == [] && Snapshot(s, c) && TearingDown(c) && HasReason(c.conditions, Ready, DeletionRequested)
    requires IsTrue(c.conditions, FileSystemCreated) && |OwnedFilesystems(s.world.filesystems, c.name)| <= 1
    requires Disappearing(DeleteFilesystemStage(s, c).s.world, w', c.name)
    ensures Remaining(w', c.name) < Remaining(s.world, c.name)
  {
    var owned := OwnedFilesystems(s.world.filesystems, c.name);
    if owned == [] {
      TrueIsFirst(c.conditions, FileSystemCreated);
      PatchFalls(s, c, Condition(FileSystemCreated, False, FilesystemDeleted, FilesystemGone, s.now), w');
    } else {
      assert owned == [owned[0]];
      var t := DeleteFilesystem(s, c.name, owned[0]).s.world;
      forall f | f in OwnedFilesystems(t.filesystems, c.name) ensures f.terminating {
        OwnedFilesystemTerminated(s, c.name, owned[0], f);
      }
      PartsDoNotGrow(t, w', c.name);
    }
  }

  lemma DisksDeleted(s: State, c: Claim)
    requires s.faults == [] && IsTrue(c.conditions, LocalDiskCreated) && OwnedDisks(s.world.disks, c.name) != []
    ensures var t := DeleteDisksStage(s, c).s.world;
      t == s.world.(disks := t.disks) && forall d :: d in OwnedDisks(t.disks, c.name) ==> d.terminating
  {
    var owned := OwnedDisks(s.world.disks, c.name);
    AllTerminated(s, c, owned);
    var t := DeleteAll(s, c, owned).s.world;
    forall d | d in OwnedDisks(t.disks, c.name) ensures d.terminating {
      OwnedAllTerminated(s, c, d);
    }
  }

  lemma DisksFall(s: State, c: Claim, w': World)
    requires s.faults == [] && Snapshot(s, c) && TearingDown(c) && HasReason(c.conditions, Ready, DeletionRequested)
    requires IsTrue(c.conditions, LocalDiskCreated)
    requires Disappearing(DeleteDisksStage(s, c).s.world, w', c.name)
    ensures Remaining(w', c.name) < Remaining(s.world, c.name)
  {
    var owned := OwnedDisks(s.world.disks, c.name);
    if owned == [] {
      TrueIsFirst(c.conditions, LocalDiskCreated);
      PatchFalls(s, c, Condition(LocalDiskCreated, False, LocalDiskDeleted, DisksGone, s.now), w');
    } else {
      DisksDeleted(s, c);
      PartsDoNotGrow(DeleteDisksStage(s, c).s.world, w', c.name);
    }
  }

  lemma TeardownFalls(s: State, c: Claim, w': World)
    requires s.faults == [] && Snapshot(s, c) && TearingDown(c) && HasReason(c.conditions, Ready, DeletionRequested)
    requires |OwnedFilesystems(s.world.filesystems, c.name)| <= 1
    requires Disappearing(Teardown(s, c).s.world, w', c.name)
    ensures Remaining(w', c.name) < Remaining(s.world, c.name)
  {
    TeardownStage(s, c);
    if IsTrue(c.conditions, StorageClassCreated) {
      ClassFalls(s, c, w');
    } else if IsTrue(c.conditions, FileSystemCreated) {
      FilesystemFalls(s, c, w');
    } else if IsTrue(c.conditions, LocalDiskCreated) {
      DisksFall(s, c, w');
    }
  }

  // Every round of an unblocked deletion lowers the measure.
  lemma RoundFalls(w: World, w': World, n: string)
    requires Deletable(w, n) && n in w.claims && DeletionRound(w, w', n)
    ensures Remaining(w', n) < Remaining(w, n)
  {
    var pick: nat, now: int :| Disappearing(Reconcile(Undisturbed(w, pick, now), n).s.world, w', n);
    var s, c := Undisturbed(w, pick, now), w.claims[n];
    DeletionNeverIdle(s, c);
    assert Reconcile(s, n) == HandleDeletion(s, c);
    if HasReason(c.conditions, Ready, DeletionRequested) {
      ChecksPass(s, c);
      TeardownFalls(s, c, w');
    } else {
      MarkingFalls(s, c, w');
    }
  }

  // ---- the deletion ends ----

  ghost predicate DeletionRounds(ws: seq<World>, n: string) {
    && ws != [] && Deletable(ws[0], n)
    && forall i :: 0 <= i < |ws| - 1 ==> DeletionRound(ws[i], ws[i + 1], n)
  }

  lemma GoneStaysGone(w: World, w': World, n: string)
    requires n !in w.claims && DeletionRound(w, w', n)
    ensures n !in w'.claims && Deletable(w', n)
  {
    var pick: nat, now: int :| Disappearing(Reconcile(Undisturbed(w, pick, now), n).s.world, w', n);
  }

  lemma {:induction false} RemainingAfter(ws: seq<World>, n: string, i: nat)
    requires DeletionRounds(ws, n) && i < |ws|
    ensures Deletable(ws[i], n)
    ensures Remaining(ws[i], n) <= if i >= Remaining(ws[0], n) then 0 else Remaining(ws[0], n) - i
  {
    if i > 0 {
      RemainingAfter(ws, n, i - 1);
      assert DeletionRound(ws[i - 1], ws[i - 1 + 1], n);
      if n in ws[i - 1].claims {
        RoundFalls(ws[i - 1], ws[i], n);
      } else {
        GoneStaysGone(ws[i - 1], ws[i], n);
      }
    }
  }

  // After at most eight undisturbed rounds the claim is gone.
  lemma DeletionTerminates(ws: seq<World>, n: string)
    requires DeletionRounds(ws, n) && |ws| > 8
    ensures n !in ws[8].claims
  {
    AtMostEight(ws[0], n);
    RemainingAfter(ws, n, 8);
    AtMostEight(ws[8], n);
  }

  // ---- such rounds exist ----

  predicate SameLabels(a: seq<Filesystem>, b: seq<Filesystem>) {
    |a| == |b| && forall i :: 0 <= i < |a| ==> a[i].labels == b[i].labels
  }

  lemma SameLabelsCons(x: Filesystem, y: Filesystem, a: seq<Filesystem>, b: seq<Filesystem>)
    requires x.labels == y.labels && SameLabels(a, b)
    ensures SameLabels([x] + a, [y] + b)
  {
  }

  // A list that is like the other up to terminating.
  predicate Alike(a: seq<Filesystem>, b: seq<Filesystem>) {
    |a| == |b| && forall i :: 0 <= i < |a| ==> a[i].labels == b[i].labels && a[i].owners == b[i].owners
  }

  lemma {:induction false} AlikeLabels(a: seq<Filesystem>, b: seq<Filesystem>, n: string)
    requires Alike(a, b)
    ensures SameLabels(OwnedFilesystems(a, n), OwnedFilesystems(b, n))
  {
    if a != [] {
      AlikeLabels(a[1..], b[1..], n);
      SameLabelsCons(a[0], b[0], OwnedFilesystems(a[1..], n), OwnedFilesystems(b[1..], n));
    }
  }

  // What a teardown of the claim leaves alone.
  predicate Kept(w: World, t: World, n: string) {
    && t.volumes == w.volumes
    && (n in t.claims ==> TearingDown(t.claims[n]))
    && SameLabels(OwnedFilesystems(w.filesystems, n), OwnedFilesystems(t.filesystems, n))
  }

  lemma EffectKeeps(e: Entry, c: Claim)
    requires Allowed(e, c) && TearingDown(c) && (c.name in e.before.claims ==> TearingDown(e.before.claims[c.name]))
    ensures Kept(e.before, Effect(e.before, e.action), c.name)
  {
    if e.action.DeletedFilesystem? {
      AlikeLabels(e.before.filesystems, Terminated(e.before.filesystems, e.action.filesystem.name), c.name);
    }
  }

  lemma {:induction false} ReplayKeeps(w: World, writes: seq<Entry>, t: World, c: Claim)
    requires Replay(w, writes, t) && AllAllowed(writes, c) && TearingDown(c)
    requires c.name in w.claims ==> TearingDown(w.claims[c.name])
    ensures Kept(w, t, c.name)
    decreases |writes|
  {
    if writes != [] {
      EffectKeeps(writes[0], c);
      ReplayKeeps(Effect(w, writes[0].action), writes[1..], t, c);
    }
  }

  // The world without the claim's disks and filesystems that are on their way out.
  function LeftDisks(disks: seq<LocalDisk>, n: string): (r: seq<LocalDisk>)
    ensures forall d :: d in r <==> d in disks && !(OwnedBy(d.owners, n) && d.terminating)
  {
    if disks == [] then []
    else (if OwnedBy(disks[0].owners, n) && disks[0].terminating then [] else [disks[0]]) + LeftDisks(disks[1..], n)
  }

  function LeftFilesystems(fs: seq<Filesystem>, n: string): (r: seq<Filesystem>)
    ensures forall f :: f in r <==> f in fs && !(OwnedBy(f.owners, n) && f.terminating)
  {
    if fs == [] then []
    else (if OwnedBy(fs[0].owners, n) && fs[0].terminating then [] else [fs[0]]) + LeftFilesystems(fs[1..], n)
  }

  function Vanished(t: World, n: string): World {
    t.(disks := LeftDisks(t.disks, n), filesystems := LeftFilesystems(t.filesystems, n))
  }

  lemma {:induction false} LeftDisksDistinct(disks: seq<LocalDisk>, n: string)
    requires DistinctDiskNames(disks)
    ensures DistinctDiskNames(LeftDisks(disks, n))
  {
    if disks != [] {
      var rest := disks[1..];
      LeftDisksDistinct(rest, n);
      forall i | 0 <= i < |LeftDisks(rest, n)| ensures LeftDisks(rest, n)[i].name != disks[0].name {
        var d := LeftDisks(rest, n)[i];
        assert d in rest;
        var j :| 0 <= j < |rest| && rest[j] == d;
        assert disks[j + 1] == d;
      }
    }
  }

  lemma {:induction false} LeftFilesystemsDistinct(fs: seq<Filesystem>, n: string)
    requires DistinctFilesystemNames(fs)
    ensures DistinctFilesystemNames(LeftFilesystems(fs, n))
  {
    if fs != [] {
      var rest := fs[1..];
      LeftFilesystemsDistinct(rest, n);
      forall i | 0 <= i < |LeftFilesystems(rest, n)| ensures LeftFilesystems(rest, n)[i].name != fs[0].name {
        var f := LeftFilesystems(rest, n)[i];
        assert f in rest;
        var j :| 0 <= j < |rest| && rest[j] == f;
        assert fs[j + 1] == f;
      }
    }
  }

  lemma {:induction false} LeftAreFew(fs: seq<Filesystem>, n: string)
    ensures |OwnedFilesystems(LeftFilesystems(fs, n), n)| <= |OwnedFilesystems(fs, n)|
  {
    if fs != [] {
      LeftAreFew(fs[1..], n);
      var rest := LeftFilesystems(fs[1..], n);
      if OwnedBy(fs[0].owners, n) && fs[0].terminating {
        assert LeftFilesystems(fs, n) == rest;
      } else {
        assert LeftFilesystems(fs, n)[1..] == rest;
      }
    }
  }

  lemma OnlyOne(a: seq<Filesystem>, b: seq<Filesystem>)
    requires |a| <= 1 && |b| <= |a| && forall f :: f in b ==> f in a
    ensures b != [] ==> a != [] && b[0] == a[0]
  {
    if b != [] {
      assert b[0] in b;
    }
  }

  lemma VanishedForm(t: World, n: string)
    requires WellFormed(t)
    ensures WellFormed(Vanished(t, n))
  {
    LeftDisksDistinct(t.disks, n);
    LeftFilesystemsDistinct(t.filesystems, n);
  }

  lemma VanishedDeletable(w: World, t: World, n: string)
    requires Deletable(w, n) && n in w.claims && WellFormed(t) && Kept(w, t, n)
    ensures Deletable(Vanished(t, n), n)
  {
    VanishedForm(t, n);
    LeftAreFew(t.filesystems, n);
    OnlyOne(OwnedFilesystems(t.filesystems, n), OwnedFilesystems(Vanished(t, n).filesystems, n));
  }

  lemma VanishedDisappears(t: World, n: string)
    requires Deletable(Vanished(t, n), n)
    ensures Disappearing(t, Vanished(t, n), n)
  {
    var w' := Vanished(t, n);
    forall f | f in OwnedFilesystems(w'.filesystems, n) ensures f in OwnedFilesystems(t.filesystems, n) && !f.terminating {
      assert OwnedBy(f.owners, n);
    }
    forall d | d in OwnedDisks(w'.disks, n) ensures d in OwnedDisks(t.disks, n) && !d.terminating {
      assert OwnedBy(d.owners, n);
    }
  }

  // Every unblocked deletion can go on: if what was deleted disappears, that is a round.
  lemma RoundExists(w: World, n: string) returns (w': World)
    requires Deletable(w, n) && n in w.claims
    ensures DeletionRound(w, w', n)
  {
    var s, c := Undisturbed(w, 0, 0), w.claims[n];
    var t := Reconcile(s, n).s;
    ReconcileContracted(s, n);
    ReplayKeeps(w, New(s, t), t.world, c);
    Runs.StepKeepsForm(w, Runs.Reconciling(n, [], 0, 0));
    w' := Vanished(t.world, n);
    VanishedDeletable(w, t.world, n);
    VanishedDisappears(t.world, n);
    assert Disappearing(Reconcile(Undisturbed(w, 0, 0), n).s.world, w', n);
  }
}
