/** A disk belongs to at most one claim, in every run that interleaves reconciles of any number
    of claims, migrations and steps of others. */
module Exclusivity {
  import opened Conditions
  import opened Cluster
  import opened ReconcilerSpec
  import opened WriteContract
  import opened MigrationSpec
  import opened Runs

  predicate IsClaimOwner(o: OwnerRef) {
    o.kind == FileSystemClaimKind
  }

  predicate OneClaimOwner(owners: seq<OwnerRef>) {
    forall i, j :: 0 <= i < |owners| && 0 <= j < |owners| && IsClaimOwner(owners[i]) && IsClaimOwner(owners[j]) ==> i == j
  }

  predicate Exclusive(disks: seq<LocalDisk>) {
    forall d :: d in disks ==> OneClaimOwner(d.owners)
  }

  // ---- at most one owner ----

  lemma EffectKeepsExclusive(e: Entry, c: Claim)
    requires Exclusive(e.before.disks) && Allowed(e, c)
    ensures Exclusive(Effect(e.before, e.action).disks)
  {
    if e.action.DeletedDisk? {
      var ds := TerminatedDisk(e.before.disks, e.action.disk.name);
      forall d | d in ds ensures OneClaimOwner(d.owners) {
        var i :| 0 <= i < |ds| && ds[i] == d;
        assert e.before.disks[i] in e.before.disks;
      }
    }
  }

  lemma {:induction false} ReplayKeepsExclusive(w: World, writes: seq<Entry>, w': World, c: Claim)
    requires Exclusive(w.disks) && Replay(w, writes, w') && AllAllowed(writes, c)
    ensures Exclusive(w'.disks)
    decreases |writes|
  {
    if writes != [] {
      EffectKeepsExclusive(writes[0], c);
      ReplayKeepsExclusive(Effect(w, writes[0].action), writes[1..], w', c);
    }
  }

  // Only disks without an owner are adopted.
  lemma AdoptionKeepsExclusive(w: World, m: Mishaps, i: nat)
    requires i < |w.disks| && OneClaimOwner(w.disks[i].owners)
    ensures OneClaimOwner(Migrate(w, m).disks[i].owners)
  {
  }

  lemma MigrationKeepsExclusive(w: World, m: Mishaps)
    requires Exclusive(w.disks)
    ensures Exclusive(Migrate(w, m).disks)
  {
    var ds := Migrate(w, m).disks;
    assert |ds| == |w.disks|;
    forall i | 0 <= i < |w.disks| ensures OneClaimOwner(ds[i].owners) {
      assert w.disks[i] in w.disks;
      AdoptionKeepsExclusive(w, m, i);
    }
  }

  lemma EnvironmentKeepsExclusive(w: World, w': World)
    requires Exclusive(w.disks) && DisksEvolve(w, w')
    ensures Exclusive(w'.disks)
  {
    forall d' | d' in w'.disks ensures OneClaimOwner(d'.owners) {
      if d :| d in w.disks && DiskEvolved(d, d') {
      } else {
        assert NoClaimOwner(d'.owners);
      }
    }
  }

  lemma StepKeepsExclusive(w: World, mv: Move)
    requires WellFormed(w) && Exclusive(w.disks) && Enabled(w, mv)
    ensures Exclusive(StepWorld(w, mv).disks)
  {
    match mv {
      case Reconciling(n, _, _, _) =>
        StepContracted(w, mv);
        if n in w.claims {
          ReplayKeepsExclusive(w, StepLog(w, mv), StepWorld(w, mv), w.claims[n]);
        }
      case Migration(m) => MigrationKeepsExclusive(w, m);
      case Other(next) => EnvironmentKeepsExclusive(w, next);
    }
  }

  // Throughout every run each disk has at most one claim among its owners.
  lemma {:induction false} RunKeepsExclusive(w: World, moves: seq<Move>)
    requires WellFormed(w) && Exclusive(w.disks) && Run(w, moves)
    ensures Exclusive(After(w, moves).disks)
    decreases |moves|
  {
    if moves != [] {
      StepKeepsForm(w, moves[0]);
      StepKeepsExclusive(w, moves[0]);
      RunKeepsExclusive(StepWorld(w, moves[0]), moves[1..]);
    }
  }

  // A disk's name is its WWN: so no two claims ever own disks for the same WWN at once.
  lemma OneHolder(w: World, a: string, b: string, wwn: string)
    requires DistinctDiskNames(w.disks) && Exclusive(w.disks)
    requires Holds(w, a, wwn) && Holds(w, b, wwn)
    ensures a == b
  {
    var d :| d in w.disks && d.name == wwn && OwnedBy(d.owners, a);
    var e :| e in w.disks && e.name == wwn && OwnedBy(e.owners, b);
    var i :| 0 <= i < |w.disks| && w.disks[i] == d;
    var j :| 0 <= j < |w.disks| && w.disks[j] == e;
    if i < j {
    } else if j < i {
    } else {
      var k :| 0 <= k < |d.owners| && d.owners[k] == ClaimRef(a);
      var l :| 0 <= l < |d.owners| && d.owners[l] == ClaimRef(b);
      assert IsClaimOwner(d.owners[k]) && IsClaimOwner(d.owners[l]);
    }
  }

  lemma NoSharedWwn(w: World, moves: seq<Move>, a: string, b: string, wwn: string)
    requires WellFormed(w) && Exclusive(w.disks) && Run(w, moves)
    requires Holds(After(w, moves), a, wwn) && Holds(After(w, moves), b, wwn)
    ensures a == b
  {
    RunKeepsForm(w, moves);
    RunKeepsExclusive(w, moves);
    OneHolder(After(w, moves), a, b, wwn);
  }

  // ---- pools of different claims ----

  // The disks a write puts into a filesystem's pools.
  function PoolDisks(a: Action): set<string> {
    match a
    case CreatedFilesystem(_, f) => set p, d | p in f.spec.pools && d in p.disks :: d
    case PatchedFilesystem(_, _, spec) => set p, d | p in spec.pools && d in p.disks :: d
    case _ => {}
  }

  lemma PoolOfSpec(names: seq<string>)
    ensures (set p, d | p in BuildSpec(names).pools && d in p.disks :: d) == set n | n in names
  {
    var pools := BuildSpec(names).pools;
    assert pools == [Pool("system", names)];
    assert Pool("system", names) in pools;
  }

  // An allowed write only lists disks that the claim owns in the world it is made in.
  lemma PoolIsHeld(e: Entry, c: Claim, name: string)
    requires Allowed(e, c) && name in PoolDisks(e.action)
    ensures Holds(e.before, e.action.claim, name)
  {
    var owned := OwnedDisks(e.before.disks, c.name);
    PoolOfSpec(DiskNames(owned));
    var i :| 0 <= i < |owned| && DiskNames(owned)[i] == name;
    assert owned[i] in owned;
  }

  // No disk is on its way out.
  predicate Lasting(w: World) {
    forall d :: d in w.disks ==> !d.terminating
  }

  predicate NoDeletions(w: World) {
    forall n :: n in w.claims ==> !w.claims[n].deleting
  }

  // In no world of the run is a claim being deleted.
  predicate NoDeletionRun(w: World, moves: seq<Move>)
    decreases |moves|
  {
    NoDeletions(w) && (moves == [] || NoDeletionRun(StepWorld(w, moves[0]), moves[1..]))
  }

  lemma EffectKeepsHeld(e: Entry, c: Claim, claim: string, name: string)
    requires Allowed(e, c) && !TearingDown(c)
    ensures Lasting(e.before) ==> Lasting(Effect(e.before, e.action))
    ensures Holds(e.before, claim, name) ==> Holds(Effect(e.before, e.action), claim, name)
  {
  }

  // Within one reconcile: what is held, or put into a pool, is held at the end.
  lemma {:induction false} ReplayKeepsHeld(w: World, writes: seq<Entry>, w': World, c: Claim, claim: string, name: string)
    requires Replay(w, writes, w') && AllAllowed(writes, c) && !TearingDown(c)
    ensures Lasting(w) ==> Lasting(w')
    ensures Holds(w, claim, name) ==> Holds(w', claim, name)
    ensures forall e :: e in writes && e.action.claim == claim && name in PoolDisks(e.action) ==> Holds(w', claim, name)
    decreases |writes|
  {
    if writes != [] {
      EffectKeepsHeld(writes[0], c, claim, name);
      if writes[0].action.claim == claim && name in PoolDisks(writes[0].action) {
        PoolIsHeld(writes[0], c, name);
      }
      ReplayKeepsHeld(Effect(w, writes[0].action), writes[1..], w', c, claim, name);
    }
  }

  lemma MigrationKeepsHeld(w: World, m: Mishaps, claim: string, name: string)
    ensures Lasting(w) ==> Lasting(Migrate(w, m))
    ensures Holds(w, claim, name) ==> Holds(Migrate(w, m), claim, name)
  {
    var w' := Migrate(w, m);
    if Holds(w, claim, name) {
      var d :| d in w.disks && d.name == name && OwnedBy(d.owners, claim);
      var i :| 0 <= i < |w.disks| && w.disks[i] == d;
      assert w'.disks[i] in w'.disks && w'.disks[i].name == name && OwnedBy(w'.disks[i].owners, claim);
    }
    if Lasting(w) {
      forall d' | d' in w'.disks ensures !d'.terminating {
        var i :| 0 <= i < |w'.disks| && w'.disks[i] == d';
        assert w.disks[i] in w.disks;
      }
    }
  }

  lemma EnvironmentKeepsHeld(w: World, w': World, claim: string, name: string)
    requires DisksEvolve(w, w') && Lasting(w)
    ensures Lasting(w')
    ensures Holds(w, claim, name) ==> Holds(w', claim, name)
  {
    if Holds(w, claim, name) {
      var d :| d in w.disks && d.name == name && OwnedBy(d.owners, claim);
      var d' :| d' in w'.disks && DiskEvolved(d, d');
    }
  }

  lemma StepKeepsHeld(w: World, mv: Move, claim: string, name: string)
    requires WellFormed(w) && Enabled(w, mv) && NoDeletions(w) && Lasting(w)
    ensures Lasting(StepWorld(w, mv))
    ensures Holds(w, claim, name) ==> Holds(StepWorld(w, mv), claim, name)
    ensures forall e :: e in StepLog(w, mv) && e.action.claim == claim && name in PoolDisks(e.action) ==>
      Holds(StepWorld(w, mv), claim, name)
  {
    match mv {
      case Reconciling(n, _, _, _) =>
        StepContracted(w, mv);
        if n in w.claims {
          ReplayKeepsHeld(w, StepLog(w, mv), StepWorld(w, mv), w.claims[n], claim, name);
        }
      case Migration(m) => MigrationKeepsHeld(w, m, claim, name);
      case Other(next) => EnvironmentKeepsHeld(w, next, claim, name);
    }
  }

  lemma {:induction false} RunKeepsHeld(w: World, moves: seq<Move>, claim: string, name: string)
    requires WellFormed(w) && Run(w, moves) && NoDeletionRun(w, moves) && Lasting(w)
    ensures Holds(w, claim, name) ==> Holds(After(w, moves), claim, name)
    ensures forall e :: e in Trace(w, moves) && e.action.claim == claim && name in PoolDisks(e.action) ==>
      Holds(After(w, moves), claim, name)
    decreases |moves|
  {
    if moves != [] {
      StepKeepsForm(w, moves[0]);
      StepKeepsHeld(w, moves[0], claim, name);
      RunKeepsHeld(StepWorld(w, moves[0]), moves[1..], claim, name);
    }
  }

  // As long as no claim is deleted, the pools written for different claims never share a disk.
  lemma PoolsDisjoint(w: World, moves: seq<Move>, e: Entry, e': Entry)
    requires WellFormed(w) && Exclusive(w.disks) && Run(w, moves) && NoDeletionRun(w, moves) && Lasting(w)
    requires e in Trace(w, moves) && e' in Trace(w, moves) && e.action.claim != e'.action.claim
    ensures PoolDisks(e.action) !! PoolDisks(e'.action)
  {
    forall name | name in PoolDisks(e.action) && name in PoolDisks(e'.action) ensures false {
      RunKeepsHeld(w, moves, e.action.claim, name);
      RunKeepsHeld(w, moves, e'.action.claim, name);
      NoSharedWwn(w, moves, e.action.claim, e'.action.claim, name);
    }
  }
}
