/** A claim made by a migration is never provisioned a second time: over all runs, with further
    migrations and deletions, no disk and no filesystem is created for it. */
module MigratedClaims {
  import opened Conditions
  import opened Cluster
  import opened ReconcilerSpec
  import opened ReadySoundness
  import opened WriteContract
  import opened MigrationSpec
  import opened Runs
  import opened Exclusivity
  import ClaimLife
  import DeletionTermination
  import MigrationProofs

  // ---- the invariant ----

  // A disk of the claim is there to stay.
  predicate OwnsLastingDisk(w: World, n: string) {
    exists d :: d in w.disks && OwnedBy(d.owners, n) && !d.terminating
  }

  // No claim but n is an owner.
  predicate OnlyClaim(owners: seq<OwnerRef>, n: string) {
    forall o :: o in owners && o.kind == FileSystemClaimKind ==> o.name == n
  }

  // The name of the claim's filesystem is taken, by a filesystem of no other claim.
  predicate NameTaken(w: World, n: string) {
    exists f :: f in w.filesystems && f.name == n && !f.terminating && OnlyClaim(f.owners, n)
  }

  predicate Provided(w: World, n: string) {
    && n in w.claims && IsTrue(w.claims[n].conditions, LocalDiskCreated)
    && OwnsLastingDisk(w, n) && NameTaken(w, n)
  }

  // Being torn down, or provided with what it needs.
  predicate HandedOver(w: World, n: string) {
    n in w.claims && (TearingDown(w.claims[n]) || Provided(w, n))
  }

  predicate DisksHealthy(w: World, n: string) {
    forall d :: d in OwnedDisks(w.disks, n) ==> DiskUsable(d, {n})
  }

  // In every world of the run the claim is there and, unless it is being torn down, its disks
  // are healthy.
  predicate HealthyRun(w: World, moves: seq<Move>, n: string)
    decreases |moves|
  {
    && n in w.claims && (TearingDown(w.claims[n]) || DisksHealthy(w, n))
    && (moves == [] || HealthyRun(StepWorld(w, moves[0]), moves[1..], n))
  }

  predicate Provisions(a: Action, n: string) {
    a.claim == n && (a.CreatedDisk? || a.CreatedFilesystem?)
  }

  // ---- single writes ----

  lemma DiskSurvives(e: Entry, c: Claim, n: string, i: nat)
    requires DistinctDiskNames(e.before.disks) && Exclusive(e.before.disks) && Allowed(e, c)
    requires (c.name == n ==> !TearingDown(c)) && i < |e.before.disks| && OwnedBy(e.before.disks[i].owners, n)
    ensures var ds := Effect(e.before, e.action).disks; i < |ds| && ds[i] == e.before.disks[i]
  {
    var w, d := e.before, e.before.disks[i];
    if e.action.DeletedDisk? && e.action.disk.name == d.name {
      assert d in w.disks && Holds(w, n, d.name);
      OneHolder(w, n, c.name, d.name);
    }
  }

  // Only the claim's own teardown deletes its disks.
  lemma EffectKeepsDisk(e: Entry, c: Claim, n: string)
    requires DistinctDiskNames(e.before.disks) && Exclusive(e.before.disks) && Allowed(e, c)
    requires (c.name == n ==> !TearingDown(c)) && OwnsLastingDisk(e.before, n)
    ensures OwnsLastingDisk(Effect(e.before, e.action), n)
  {
    var w := e.before;
    var d :| d in w.disks && OwnedBy(d.owners, n) && !d.terminating;
    var i :| 0 <= i < |w.disks| && w.disks[i] == d;
    DiskSurvives(e, c, n, i);
    assert Effect(w, e.action).disks[i] in Effect(w, e.action).disks;
  }

  lemma FilesystemSurvives(e: Entry, c: Claim, n: string, i: nat)
    requires DistinctFilesystemNames(e.before.filesystems) && Allowed(e, c)
    requires (c.name == n ==> !TearingDown(c)) && i < |e.before.filesystems| && OnlyClaim(e.before.filesystems[i].owners, n)
    ensures var fs, f := Effect(e.before, e.action).filesystems, e.before.filesystems[i];
      i < |fs| && fs[i].name == f.name && fs[i].owners == f.owners && fs[i].terminating == f.terminating
  {
    if e.action.DeletedFilesystem? {
      assert e.before.filesystems[i] in e.before.filesystems;
      OthersFilesystem(e.before, e.action.filesystem, e.before.filesystems[i], c.name, n);
    }
  }

  // Only an owner deletes a filesystem.
  lemma EffectKeepsName(e: Entry, c: Claim, n: string)
    requires DistinctFilesystemNames(e.before.filesystems) && Allowed(e, c)
    requires (c.name == n ==> !TearingDown(c)) && NameTaken(e.before, n)
    ensures NameTaken(Effect(e.before, e.action), n)
  {
    var w := e.before;
    var f :| f in w.filesystems && f.name == n && !f.terminating && OnlyClaim(f.owners, n);
    var i :| 0 <= i < |w.filesystems| && w.filesystems[i] == f;
    FilesystemSurvives(e, c, n, i);
    assert Effect(w, e.action).filesystems[i] in Effect(w, e.action).filesystems;
  }

  lemma OthersFilesystem(w: World, g: Filesystem, f: Filesystem, claim: string, n: string)
    requires DistinctFilesystemNames(w.filesystems) && claim != n
    requires OwnedFilesystems(w.filesystems, claim) == [g] && f in w.filesystems && OnlyClaim(f.owners, n)
    ensures g.name != f.name
  {
    assert g in OwnedFilesystems(w.filesystems, claim);
    var i :| 0 <= i < |w.filesystems| && w.filesystems[i] == g;
    var j :| 0 <= j < |w.filesystems| && w.filesystems[j] == f;
    assert i != j;
    if i < j {
      assert w.filesystems[i].name != w.filesystems[j].name;
    } else {
      assert w.filesystems[j].name != w.filesystems[i].name;
    }
  }

  // A write of the claim's own live reconcile.
  lemma OwnWriteProvides(e: Entry, c: Claim)
    requires WellFormed(e.before) && Exclusive(e.before.disks) && Allowed(e, c) && !TearingDown(c)
    requires IsTrue(c.conditions, LocalDiskCreated) && Provided(e.before, c.name) && DisksHealthy(e.before, c.name)
    ensures var w := Effect(e.before, e.action); Provided(w, c.name) && w.disks == e.before.disks
    ensures !Provisions(e.action, c.name)
  {
    EffectKeepsDisk(e, c, c.name);
    EffectKeepsName(e, c, c.name);
    assert HasFilesystem(e.before.filesystems, c.name);
    OwnWriteKeepsTrue(e, c);
  }

  lemma OwnWriteKeepsTrue(e: Entry, c: Claim)
    requires WellFormed(e.before) && Allowed(e, c) && !TearingDown(c) && IsTrue(c.conditions, LocalDiskCreated)
    requires IsTrue(e.before.claims[c.name].conditions, LocalDiskCreated)
    requires OwnsLastingDisk(e.before, c.name) && DisksHealthy(e.before, c.name)
    ensures var w := Effect(e.before, e.action);
      c.name in w.claims && IsTrue(w.claims[c.name].conditions, LocalDiskCreated)
  {
    if e.action.WroteStatus? {
      var d :| d in e.before.disks && OwnedBy(d.owners, c.name);
      assert d in OwnedDisks(e.before.disks, c.name);
      StaysTrue(e.before.claims[c.name].conditions, e.action.news, LocalDiskCreated);
    }
  }

  // ---- whole reconciles ----

  lemma {:induction false} OwnReconcileProvides(u: World, writes: seq<Entry>, u': World, c: Claim)
    requires WellFormed(u) && Exclusive(u.disks) && Replay(u, writes, u') && AllAllowed(writes, c) && !TearingDown(c)
    requires IsTrue(c.conditions, LocalDiskCreated) && Provided(u, c.name) && DisksHealthy(u, c.name)
    ensures Provided(u', c.name) && forall e :: e in writes ==> !Provisions(e.action, c.name)
    decreases |writes|
  {
    if writes != [] {
      var e := writes[0];
      assert Allowed(e, c);
      OwnWriteProvides(e, c);
      EffectKeepsForm(e, c);
      OwnReconcileProvides(Effect(u, e.action), writes[1..], u', c);
    }
  }

  // A teardown creates nothing and is not taken back.
  lemma OwnTeardownProvides(u: World, writes: seq<Entry>, u': World, c: Claim)
    requires Replay(u, writes, u') && AllAllowed(writes, c) && TearingDown(c) && c.name in u.claims && u.claims[c.name] == c
    ensures c.name in u'.claims ==> TearingDown(u'.claims[c.name])
    ensures forall e :: e in writes ==> !Provisions(e.action, c.name)
  {
    DeletionTermination.ReplayKeeps(u, writes, u', c);
    forall e | e in writes ensures !Provisions(e.action, c.name) {
      assert Allowed(e, c);
    }
  }

  lemma OtherWriteLeavesAlone(e: Entry, c: Claim, n: string)
    requires WellFormed(e.before) && Exclusive(e.before.disks) && Allowed(e, c) && c.name != n && HandedOver(e.before, n)
    ensures HandedOver(Effect(e.before, e.action), n)
  {
    ClaimLife.OthersKeepConditions(e, c, n);
    if Provided(e.before, n) {
      EffectKeepsDisk(e, c, n);
      EffectKeepsName(e, c, n);
    }
  }

  // Reconciles of other claims, deletions included.
  lemma {:induction false} OthersLeaveAlone(u: World, writes: seq<Entry>, u': World, c: Claim, n: string)
    requires WellFormed(u) && Exclusive(u.disks) && Replay(u, writes, u') && AllAllowed(writes, c)
    requires c.name != n && HandedOver(u, n)
    ensures HandedOver(u', n) && forall e :: e in writes ==> !Provisions(e.action, n)
    decreases |writes|
  {
    if writes != [] {
      var e := writes[0];
      assert Allowed(e, c);
      OtherWriteLeavesAlone(e, c, n);
      EffectKeepsForm(e, c);
      EffectKeepsExclusive(e, c);
      OthersLeaveAlone(Effect(u, e.action), writes[1..], u', c, n);
    }
  }

  lemma ReconcileLeavesAlone(w: World, mv: Move, n: string)
    requires WellFormed(w) && Exclusive(w.disks) && mv.Reconciling? && HandedOver(w, n)
    requires TearingDown(w.claims[n]) || DisksHealthy(w, n)
    requires n in StepWorld(w, mv).claims
    ensures HandedOver(StepWorld(w, mv), n) && forall e :: e in StepLog(w, mv) ==> !Provisions(e.action, n)
  {
    StepContracted(w, mv);
    if mv.claim in w.claims {
      var c := w.claims[mv.claim];
      if mv.claim != n {
        OthersLeaveAlone(w, StepLog(w, mv), StepWorld(w, mv), c, n);
      } else if TearingDown(c) {
        OwnTeardownProvides(w, StepLog(w, mv), StepWorld(w, mv), c);
      } else {
        OwnReconcileProvides(w, StepLog(w, mv), StepWorld(w, mv), c);
      }
    }
  }

  // ---- steps of others, and migrations ----

  lemma EnvironmentKeepsDisk(w: World, w': World, n: string)
    requires DisksPersist(w, w') && OwnsLastingDisk(w, n)
    ensures OwnsLastingDisk(w', n)
  {
    var d :| d in w.disks && OwnedBy(d.owners, n) && !d.terminating;
    var d' :| d' in w'.disks && DiskEvolved(d, d');
  }

  lemma EnvironmentKeepsName(w: World, w': World, n: string)
    requires FilesystemsEvolve(w, w') && NameTaken(w, n)
    ensures NameTaken(w', n)
  {
    var f :| f in w.filesystems && f.name == n && !f.terminating && OnlyClaim(f.owners, n);
    var f' :| f' in w'.filesystems && FilesystemEvolved(f, f');
    assert f'.owners == f.owners;
  }

  lemma EnvironmentLeavesAlone(w: World, w': World, n: string)
    requires Environment(w, w') && HandedOver(w, n) && n in w'.claims
    ensures HandedOver(w', n)
  {
    assert ClaimEdited(w.claims[n], w'.claims[n]);
    if !TearingDown(w.claims[n]) {
      EnvironmentKeepsDisk(w, w', n);
      EnvironmentKeepsName(w, w', n);
    }
  }

  lemma MigrationKeepsDisk(w: World, m: Mishaps, n: string)
    requires OwnsLastingDisk(w, n)
    ensures OwnsLastingDisk(Migrate(w, m), n)
  {
    var d :| d in w.disks && OwnedBy(d.owners, n) && !d.terminating;
    var i :| 0 <= i < |w.disks| && w.disks[i] == d;
    MigrationProofs.AdoptedFor(w, m, n, i);
    assert Migrate(w, m).disks[i] in Migrate(w, m).disks;
  }

  // A filesystem is only ever adopted for the claim of its own name.
  lemma MigrationKeepsName(w: World, m: Mishaps, n: string)
    requires NameTaken(w, n)
    ensures NameTaken(Migrate(w, m), n)
  {
    var f :| f in w.filesystems && f.name == n && !f.terminating && OnlyClaim(f.owners, n);
    var i :| 0 <= i < |w.filesystems| && w.filesystems[i] == f;
    var f' := Migrate(w, m).filesystems[i];
    AdoptedByName(f, n);
    assert f' == f || f' == AdoptFilesystem(f, n);
    assert f' in Migrate(w, m).filesystems;
  }

  lemma AdoptedByName(f: Filesystem, n: string)
    requires OnlyClaim(f.owners, n)
    ensures var a := AdoptFilesystem(f, n); OnlyClaim(a.owners, n) && a.name == f.name && a.terminating == f.terminating
  {
  }

  lemma MigrationLeavesAlone(w: World, m: Mishaps, n: string)
    requires HandedOver(w, n)
    ensures HandedOver(Migrate(w, m), n)
  {
    MigrationProofs.ClaimAfter(w, m, n);
    if Provided(w, n) {
      MigrationKeepsDisk(w, m, n);
      MigrationKeepsName(w, m, n);
    }
  }

  lemma StepLeavesAlone(w: World, mv: Move, n: string)
    requires WellFormed(w) && Exclusive(w.disks) && Enabled(w, mv) && HandedOver(w, n)
    requires TearingDown(w.claims[n]) || DisksHealthy(w, n)
    requires n in StepWorld(w, mv).claims
    ensures HandedOver(StepWorld(w, mv), n) && forall e :: e in StepLog(w, mv) ==> !Provisions(e.action, n)
  {
    match mv {
      case Reconciling(_, _, _, _) => ReconcileLeavesAlone(w, mv, n);
      case Migration(m) => MigrationLeavesAlone(w, m, n);
      case Other(next) => EnvironmentLeavesAlone(w, next, n);
    }
  }

  // ---- runs ----

  lemma {:induction false} RunLeavesAlone(w: World, moves: seq<Move>, n: string)
    requires WellFormed(w) && Exclusive(w.disks) && Run(w, moves) && HandedOver(w, n) && HealthyRun(w, moves, n)
    ensures HandedOver(After(w, moves), n) && forall e :: e in Trace(w, moves) ==> !Provisions(e.action, n)
    decreases |moves|
  {
    if moves != [] {
      assert HealthyRun(StepWorld(w, moves[0]), moves[1..], n);
      StepKeepsForm(w, moves[0]);
      StepKeepsExclusive(w, moves[0]);
      StepLeavesAlone(w, moves[0], n);
      RunLeavesAlone(StepWorld(w, moves[0]), moves[1..], n);
    }
  }

  // ---- the hand-over ----

  // The migration is about to make the claim: no disk names it as owner yet, its disks and its
  // filesystem are not on their way out, and the filesystem belongs to no other claim.
  predicate Unclaimed(w: World, g: string) {
    && MigrationProofs.NoStrays(w, g)
    && (forall d :: d in GroupDisks(w.disks, g) ==> !d.terminating)
    && (forall f :: f in w.filesystems && f.name == g ==> OnlyClaim(f.owners, g) && !f.terminating)
  }

  lemma MigrationGivesName(w: World, m: Mishaps, g: string)
    requires HasFilesystem(w.filesystems, g) && Unclaimed(w, g)
    ensures NameTaken(Migrate(w, m), g)
  {
    assert NameTaken(w, g);
    MigrationKeepsName(w, m, g);
  }

  lemma MigrationGivesDisks(w: World, m: Mishaps, g: string)
    requires g in Keys(w.disks) && DisksDone(w, g, m) && Unclaimed(w, g)
    ensures ClaimLife.Matching(Migrate(w, m), g) && OwnsLastingDisk(Migrate(w, m), g)
  {
    var w1 := Migrate(w, m);
    MigrationProofs.HandOver(w, m, g);
    forall e | e in OwnedDisks(w1.disks, g) ensures !e.terminating {
      var d := MigrationProofs.OwnedIsAdopted(w, m, g, e);
    }
    assert OwnedDisks(w1.disks, g)[0] in OwnedDisks(w1.disks, g);
  }

  // If the filesystem names the claim as owner already, it does so in the current API version.
  predicate CurrentOwner(w: World, g: string) {
    forall f :: f in w.filesystems && f.name == g && HasClaimOwner(f.owners, g) ==> OwnedBy(f.owners, g)
  }

  predicate OwnsFilesystem(w: World, n: string) {
    exists f :: f in w.filesystems && f.name == n && OwnedBy(f.owners, n) && !f.terminating
  }

  lemma MigrationGivesFilesystem(w: World, m: Mishaps, g: string)
    requires g in Keys(w.disks) && FilesystemDone(w, g, m) && Unclaimed(w, g) && CurrentOwner(w, g)
    ensures OwnsFilesystem(Migrate(w, m), g)
  {
    assert HasFilesystem(w.filesystems, g);
    var f :| f in w.filesystems && f.name == g;
    var i :| 0 <= i < |w.filesystems| && w.filesystems[i] == f;
    MigratedFilesystemAt(w, m, g, i);
    assert Migrate(w, m).filesystems[i] in Migrate(w, m).filesystems;
  }

  lemma MigratedFilesystemAt(w: World, m: Mishaps, g: string, i: nat)
    requires i < |w.filesystems| && w.filesystems[i].name == g && g in Keys(w.disks) && FilesystemDone(w, g, m)
    requires HasClaimOwner(w.filesystems[i].owners, g) ==> OwnedBy(w.filesystems[i].owners, g)
    ensures var f := Migrate(w, m).filesystems[i];
      f.name == g && OwnedBy(f.owners, g) && f.terminating == w.filesystems[i].terminating
  {
  }

  // A claim newly made by a migration, whose status was written, is handed over as soon as its
  // disks are adopted, whatever happens to its filesystem and class: the disks match its devices,
  // LocalDiskCreated is True and the filesystem's name is taken. If the migration gets as far as
  // the filesystem, that filesystem is the claim's.
  lemma MigrationHandsOver(w: World, m: Mishaps, g: string)
    requires g in Keys(w.disks) && DisksDone(w, g, m) && g !in m.statusUpdates && Unclaimed(w, g)
    ensures HandedOver(Migrate(w, m), g) && Provided(Migrate(w, m), g)
    ensures ClaimLife.Matching(Migrate(w, m), g) && OwnedDisks(Migrate(w, m).disks, g) != []
    ensures FilesystemDone(w, g, m) && CurrentOwner(w, g) ==> OwnsFilesystem(Migrate(w, m), g)
  {
    MigrationGivesName(w, m, g);
    MigrationGivesDisks(w, m, g);
    MigrationProofs.HandOver(w, m, g);
    MigrationProofs.MigratedStatus(|GroupDisks(w.disks, g)|, g in w.classes, m.now);
    if FilesystemDone(w, g, m) && CurrentOwner(w, g) {
      MigrationGivesFilesystem(w, m, g);
    }
  }

  // From then on, in every run in which the claim is there and its disks are healthy unless it is
  // being torn down, whatever is migrated or deleted, no disk or filesystem is created for it.
  lemma MigratedClaimLeftAlone(w: World, m: Mishaps, g: string, moves: seq<Move>, e: Entry)
    requires WellFormed(w) && Exclusive(w.disks)
    requires g in Keys(w.disks) && DisksDone(w, g, m) && g !in m.statusUpdates && Unclaimed(w, g)
    requires Run(Migrate(w, m), moves) && HealthyRun(Migrate(w, m), moves, g)
    requires e in Trace(Migrate(w, m), moves) && e.action.claim == g
    ensures !e.action.CreatedDisk? && !e.action.CreatedFilesystem?
  {
    MigrationKeepsForm(w, m);
    MigrationKeepsExclusive(w, m);
    MigrationHandsOver(w, m, g);
    RunLeavesAlone(Migrate(w, m), moves, g);
  }
}
