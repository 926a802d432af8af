/** Whole runs: reconciles of any claims, migrations, and steps of everybody else (users, the
    storage operator, the API server), in any order, with any calls failing. */
module Runs {
  import opened Conditions
  import opened Cluster
  import opened ReconcilerSpec
  import opened ReadySoundness
  import opened WriteContract
  import opened MigrationSpec
  import MigrationProofs
  import Webhook

  // ---- what others may do between two steps ----

  // A user may ask for deletion and edit the devices as far as the webhook lets them.
  // The status and the finalizer belong to the controller.
  predicate ClaimEdited(c: Claim, c': Claim) {
    && c'.name == c.name && c'.finalizer == c.finalizer && c'.conditions == c.conditions
    && (c.deleting ==> c'.deleting)
    && (c'.deleting ==> c'.finalizer)
    && Webhook.AllowsUpdate(c, c'.devices)
  }

  predicate FreshClaim(c: Claim, n: string) {
    c.name == n && c.conditions == [] && !c.finalizer && !c.deleting
  }

  // Claims come without status, and go only when no finalizer holds them.
  predicate ClaimsEvolve(w: World, w': World) {
    && (forall n :: n in w'.claims ==>
          if n in w.claims then ClaimEdited(w.claims[n], w'.claims[n]) else FreshClaim(w'.claims[n], n))
    && (forall n :: n in w.claims && w.claims[n].finalizer ==> n in w'.claims)
  }

  predicate NoClaimOwner(owners: seq<OwnerRef>) {
    forall o :: o in owners ==> o.kind != FileSystemClaimKind
  }

  // Status and labels change freely; device, node and owners stay.
  predicate DiskEvolved(d: LocalDisk, d': LocalDisk) {
    d'.name == d.name && d'.device == d.device && d'.node == d.node && d'.owners == d.owners && d'.terminating == d.terminating
  }

  // Disks made by others have no claim as owner.
  predicate DisksInherited(w: World, w': World) {
    forall d' :: d' in w'.disks ==>
      (exists d :: d in w.disks && DiskEvolved(d, d'))
      || (!HasDisk(w.disks, d'.name) && NoClaimOwner(d'.owners) && !d'.terminating)
  }

  // A disk vanishes only after it was deleted.
  predicate DisksPersist(w: World, w': World) {
    forall d :: d in w.disks && !d.terminating ==> exists d' :: d' in w'.disks && DiskEvolved(d, d')
  }

  predicate DisksEvolve(w: World, w': World) {
    DistinctDiskNames(w'.disks) && DisksInherited(w, w') && DisksPersist(w, w')
  }

  predicate FilesystemEvolved(f: Filesystem, f': Filesystem) {
    f'.name == f.name && f'.spec == f.spec && f'.owners == f.owners && f'.terminating == f.terminating
  }

  predicate FilesystemsEvolve(w: World, w': World) {
    && DistinctFilesystemNames(w'.filesystems)
    && (forall f' :: f' in w'.filesystems ==>
          (exists f :: f in w.filesystems && FilesystemEvolved(f, f'))
          || (!HasFilesystem(w.filesystems, f'.name) && NoClaimOwner(f'.owners) && !f'.terminating))
    && (forall f :: f in w.filesystems && !f.terminating ==> exists f' :: f' in w'.filesystems && FilesystemEvolved(f, f'))
  }

  // Storage classes, volumes, nodes and discovery results are not constrained at all.
  predicate Environment(w: World, w': World) {
    ClaimsEvolve(w, w') && DisksEvolve(w, w') && FilesystemsEvolve(w, w')
  }

  // ---- runs ----

  datatype Move =
    | Reconciling(claim: string, faults: seq<bool>, pick: nat, now: int)
    | Migration(mishaps: Mishaps)
    | Other(next: World)

  function Start(w: World, mv: Move): State
    requires mv.Reconciling?
  {
    State(w, mv.faults, [], mv.pick, mv.now)
  }

  function StepWorld(w: World, mv: Move): World {
    match mv
    case Reconciling(n, _, _, _) => Reconcile(Start(w, mv), n).s.world
    case Migration(m) => Migrate(w, m)
    case Other(next) => next
  }

  // The writes of one move.
  function StepLog(w: World, mv: Move): seq<Entry> {
    if mv.Reconciling? then Reconcile(Start(w, mv), mv.claim).s.log else []
  }

  predicate Enabled(w: World, mv: Move) {
    mv.Other? ==> Environment(w, mv.next)
  }

  predicate Run(w: World, moves: seq<Move>)
    decreases |moves|
  {
    moves == [] || (Enabled(w, moves[0]) && Run(StepWorld(w, moves[0]), moves[1..]))
  }

  function After(w: World, moves: seq<Move>): World
    decreases |moves|
  {
    if moves == [] then w else After(StepWorld(w, moves[0]), moves[1..])
  }

  // The writes of a run, in order.
  function Trace(w: World, moves: seq<Move>): seq<Entry>
    decreases |moves|
  {
    if moves == [] then [] else StepLog(w, moves[0]) + Trace(StepWorld(w, moves[0]), moves[1..])
  }

  // The writes of a reconcile replay to its outcome and are all allowed.
  lemma StepContracted(w: World, mv: Move)
    requires WellFormed(w) && mv.Reconciling?
    ensures Replay(w, StepLog(w, mv), StepWorld(w, mv))
    ensures mv.claim in w.claims ==> AllAllowed(StepLog(w, mv), w.claims[mv.claim])
    ensures mv.claim !in w.claims ==> StepLog(w, mv) == []
  {
    var s := Start(w, mv);
    ReconcileContracted(s, mv.claim);
    var t := Reconcile(s, mv.claim).s;
    if mv.claim in w.claims {
      assert New(s, t) == t.log;
    }
  }

  // ---- well-formedness ----

  lemma StatusKeepsForm(w: World, n: string, news: seq<Condition>)
    requires WellFormed(w)
    ensures WellFormed(Effect(w, WroteStatus(n, news)))
  {
    if n in w.claims {
      UpdatedAllUnique(w.claims[n].conditions, news);
    }
  }

  lemma CreationKeepsNames(w: World, d: LocalDisk, f: Filesystem)
    requires WellFormed(w)
    ensures !HasDisk(w.disks, d.name) ==> DistinctDiskNames(w.disks + [d])
    ensures !HasFilesystem(w.filesystems, f.name) ==> DistinctFilesystemNames(w.filesystems + [f])
  {
    assert forall i :: 0 <= i < |w.disks| ==> w.disks[i] in w.disks;
    assert forall i :: 0 <= i < |w.filesystems| ==> w.filesystems[i] in w.filesystems;
  }

  lemma EffectKeepsForm(e: Entry, c: Claim)
    requires WellFormed(e.before) && Allowed(e, c)
    ensures WellFormed(Effect(e.before, e.action))
  {
    var w := e.before;
    match e.action {
      case WroteStatus(n, news) => StatusKeepsForm(w, n, news);
      case CreatedDisk(_, d) => CreationKeepsNames(w, d, NewFilesystem("", BuildSpec([])));
      case CreatedFilesystem(_, f) => CreationKeepsNames(w, NewDisk("", "", "", ""), f);
      case _ =>
    }
  }

  lemma {:induction false} ReplayKeepsForm(w: World, writes: seq<Entry>, w': World, c: Claim)
    requires WellFormed(w) && Replay(w, writes, w') && AllAllowed(writes, c)
    ensures WellFormed(w')
    decreases |writes|
  {
    if writes != [] {
      EffectKeepsForm(writes[0], c);
      ReplayKeepsForm(Effect(w, writes[0].action), writes[1..], w', c);
    }
  }

  lemma MigrationKeepsForm(w: World, m: Mishaps)
    requires WellFormed(w)
    ensures WellFormed(Migrate(w, m))
  {
    var w' := Migrate(w, m);
    forall i, j | 0 <= i < j < |w.disks| ensures w'.disks[i].name != w'.disks[j].name {
      assert w'.disks[i].name == w.disks[i].name && w'.disks[j].name == w.disks[j].name;
    }
    MigrationProofs.NamesLast(w, m);
    forall n | n in w'.claims ensures w'.claims[n].name == n && Unique(w'.claims[n].conditions) {
      if n !in w.claims {
        MigrationProofs.MigratedStatus(|GroupDisks(w.disks, n)|, n in w.classes, m.now);
      }
    }
  }

  lemma StepKeepsForm(w: World, mv: Move)
    requires WellFormed(w) && Enabled(w, mv)
    ensures WellFormed(StepWorld(w, mv))
  {
    match mv {
      case Reconciling(n, _, _, _) =>
        StepContracted(w, mv);
        if n in w.claims {
          ReplayKeepsForm(w, StepLog(w, mv), StepWorld(w, mv), w.claims[n]);
        }
      case Migration(m) => MigrationKeepsForm(w, m);
      case Other(next) =>
    }
  }

  // The API server's guarantees and one condition per type hold throughout every run.
  lemma {:induction false} RunKeepsForm(w: World, moves: seq<Move>)
    requires WellFormed(w) && Run(w, moves)
    ensures WellFormed(After(w, moves))
    decreases |moves|
  {
    if moves != [] {
      StepKeepsForm(w, moves[0]);
      RunKeepsForm(StepWorld(w, moves[0]), moves[1..]);
    }
  }
}
