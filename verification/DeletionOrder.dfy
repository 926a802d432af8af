/** The order in which a deletion takes things apart, over whole runs: storage class, then
    filesystem, then disks, then the finalizer, each only after its predecessor was seen gone,
    and nothing is created in between. */
module DeletionOrder {
  import opened Conditions
  import opened Cluster
  import opened ReconcilerSpec
  import opened WriteContract
  import opened Runs
  import opened MigrationSpec
  import MigrationProofs

  // ---- sightings ----

  // A status write that takes a condition off True.
  predicate MarksGone(a: Action, kind: ConditionType) {
    a.WroteStatus? && exists x :: x in a.news && x.kind == kind && x.status != True
  }

  // The claim's condition for the resource was taken off True in a world in which the resource
  // was absent.
  predicate SawNoClass(seen: seq<Entry>, n: string) {
    exists e :: e in seen && e.action.claim == n && MarksGone(e.action, StorageClassCreated) && n !in e.before.classes
  }

  predicate SawNoFilesystem(seen: seq<Entry>, n: string) {
    exists e :: e in seen && e.action.claim == n && MarksGone(e.action, FileSystemCreated)
                && OwnedFilesystems(e.before.filesystems, n) == []
  }

  predicate SawNoDisk(seen: seq<Entry>, n: string) {
    exists e :: e in seen && e.action.claim == n && MarksGone(e.action, LocalDiskCreated)
                && OwnedDisks(e.before.disks, n) == []
  }

  // What a write for the claim may be, given the writes before it.
  predicate InOrder(seen: seq<Entry>, e: Entry, n: string) {
    e.action.claim == n ==>
      match e.action
      case WroteStatus(_, _) => true
      case DeletedClass(_) => !ClassInUse(e.before, n)
      case DeletedFilesystem(_, f) =>
        OwnedFilesystems(e.before.filesystems, n) == [f] && AllowDelete in f.labels && SawNoClass(seen, n)
      case DeletedDisk(_, d) => OwnedBy(d.owners, n) && SawNoClass(seen, n) && SawNoFilesystem(seen, n)
      case RemovedFinalizer(_) => SawNoClass(seen, n) && SawNoFilesystem(seen, n) && SawNoDisk(seen, n)
      case _ => false
  }

  predicate Ordered(seen: seq<Entry>, writes: seq<Entry>, n: string)
    decreases |writes|
  {
    writes == [] || (InOrder(seen, writes[0], n) && Ordered(seen + [writes[0]], writes[1..], n))
  }

  lemma {:induction false} OrderedAppend(seen: seq<Entry>, first: seq<Entry>, second: seq<Entry>, n: string)
    requires Ordered(seen, first, n) && Ordered(seen + first, second, n)
    ensures Ordered(seen, first + second, n)
    decreases |first|
  {
    if first == [] {
      assert first + second == second && seen + first == seen;
    } else {
      assert seen + [first[0]] + first[1..] == seen + first;
      OrderedAppend(seen + [first[0]], first[1..], second, n);
      assert (first + second)[1..] == first[1..] + second;
    }
  }

  lemma {:induction false} OrderedAt(seen: seq<Entry>, writes: seq<Entry>, n: string, i: nat)
    requires Ordered(seen, writes, n) && i < |writes|
    ensures InOrder(seen + writes[..i], writes[i], n)
    decreases i
  {
    if i == 0 {
      assert seen + writes[..0] == seen;
    } else {
      OrderedAt(seen + [writes[0]], writes[1..], n, i - 1);
      assert seen + [writes[0]] + writes[1..][..i - 1] == seen + writes[..i];
    }
  }

  // ---- the invariant ----

  // A resource whose condition is not True has been seen absent.
  predicate Marked(conditions: seq<Condition>, seen: seq<Entry>, n: string) {
    && (IsTrue(conditions, StorageClassCreated) || SawNoClass(seen, n))
    && (IsTrue(conditions, FileSystemCreated) || SawNoFilesystem(seen, n))
    && (IsTrue(conditions, LocalDiskCreated) || SawNoDisk(seen, n))
  }

  predicate Dismantling(w: World, seen: seq<Entry>, n: string) {
    n in w.claims ==> TearingDown(w.claims[n]) && Marked(w.claims[n].conditions, seen, n)
  }

  lemma SeenMore(a: seq<Entry>, b: seq<Entry>, n: string)
    requires forall e :: e in a ==> e in b
    ensures SawNoClass(a, n) ==> SawNoClass(b, n)
    ensures SawNoFilesystem(a, n) ==> SawNoFilesystem(b, n)
    ensures SawNoDisk(a, n) ==> SawNoDisk(b, n)
  {
  }

  lemma StatusKeepsMarks(e: Entry, c: Claim, seen: seq<Entry>)
    requires WellFormed(e.before) && Allowed(e, c) && TearingDown(c) && e.action.WroteStatus?
    requires Marked(e.before.claims[c.name].conditions, seen, c.name)
    ensures Marked(UpdatedAll(e.before.claims[c.name].conditions, e.action.news), seen + [e], c.name)
  {
    var old_, news := e.before.claims[c.name].conditions, e.action.news;
    SeenMore(seen, seen + [e], c.name);
    assert e in seen + [e];
    if IsTrue(old_, StorageClassCreated) && forall x :: x in news ==> x.kind != StorageClassCreated {
      StaysTrue(old_, news, StorageClassCreated);
    }
    if IsTrue(old_, FileSystemCreated) && forall x :: x in news ==> x.kind != FileSystemCreated {
      StaysTrue(old_, news, FileSystemCreated);
    }
    if IsTrue(old_, LocalDiskCreated) && forall x :: x in news ==> x.kind != LocalDiskCreated {
      StaysTrue(old_, news, LocalDiskCreated);
    }
  }

  lemma EffectKeepsDismantling(e: Entry, c: Claim, seen: seq<Entry>)
    requires WellFormed(e.before) && Allowed(e, c) && TearingDown(c)
    requires Dismantling(e.before, seen, c.name)
    ensures Dismantling(Effect(e.before, e.action), seen + [e], c.name)
  {
    SeenMore(seen, seen + [e], c.name);
    if e.action.WroteStatus? {
      StatusKeepsMarks(e, c, seen);
    }
  }

  lemma AllowedInOrder(e: Entry, c: Claim, seen: seq<Entry>)
    requires Allowed(e, c) && TearingDown(c) && Marked(c.conditions, seen, c.name)
    ensures InOrder(seen, e, c.name)
  {
  }

  lemma NextInOrder(e: Entry, c: Claim, base: seq<Entry>, seen: seq<Entry>)
    requires Allowed(e, c) && TearingDown(c) && Marked(c.conditions, base, c.name) && forall e :: e in base ==> e in seen
    ensures InOrder(seen, e, c.name)
  {
    SeenMore(base, seen, c.name);
    AllowedInOrder(e, c, seen);
  }

  // One reconcile of the claim: `c` is its snapshot and `base` what had been seen when it began.
  lemma {:induction false} ReconcileInOrder(u: World, writes: seq<Entry>, u': World, c: Claim, base: seq<Entry>, seen: seq<Entry>)
    requires WellFormed(u) && Replay(u, writes, u') && AllAllowed(writes, c) && TearingDown(c)
    requires Marked(c.conditions, base, c.name) && forall e :: e in base ==> e in seen
    requires Dismantling(u, seen, c.name)
    ensures Ordered(seen, writes, c.name) && Dismantling(u', seen + writes, c.name)
    decreases |writes|
  {
    if writes == [] {
      assert seen + writes == seen;
    } else {
      var e := writes[0];
      assert Allowed(e, c);
      NextInOrder(e, c, base, seen);
      EffectKeepsForm(e, c);
      EffectKeepsDismantling(e, c, seen);
      ReconcileInOrder(Effect(u, e.action), writes[1..], u', c, base, seen + [e]);
      assert seen + [e] + writes[1..] == seen + writes;
    }
  }

  lemma OthersKeepClaim(e: Entry, c: Claim, n: string)
    requires Allowed(e, c) && c.name != n
    ensures var w := Effect(e.before, e.action);
      (n in w.claims <==> n in e.before.claims) && (n in w.claims ==> w.claims[n] == e.before.claims[n])
  {
  }

  lemma MarksLast(conditions: seq<Condition>, seen: seq<Entry>, more: seq<Entry>, n: string)
    requires Marked(conditions, seen, n) && forall e :: e in seen ==> e in more
    ensures Marked(conditions, more, n)
  {
    SeenMore(seen, more, n);
  }

  // Reconciles of other claims do not touch this one.
  lemma {:induction false} OthersInOrder(u: World, writes: seq<Entry>, u': World, c: Claim, n: string, seen: seq<Entry>)
    requires Replay(u, writes, u') && AllAllowed(writes, c) && c.name != n && Dismantling(u, seen, n)
    ensures Ordered(seen, writes, n) && Dismantling(u', seen + writes, n)
    decreases |writes|
  {
    if writes == [] {
      assert seen + writes == seen;
    } else {
      var e := writes[0];
      OthersKeepClaim(e, c, n);
      if n in u.claims {
        MarksLast(u.claims[n].conditions, seen, seen + [e], n);
      }
      OthersInOrder(Effect(u, e.action), writes[1..], u', c, n, seen + [e]);
      assert seen + [e] + writes[1..] == seen + writes;
    }
  }

  // ---- runs ----

  // Once the claim is gone, nobody makes a new one of its name.
  predicate NotRecreated(w: World, moves: seq<Move>, n: string)
    decreases |moves|
  {
    moves == [] ||
    ((n !in w.claims ==> n !in StepWorld(w, moves[0]).claims) && NotRecreated(StepWorld(w, moves[0]), moves[1..], n))
  }

  lemma StepInOrder(w: World, mv: Move, n: string, seen: seq<Entry>)
    requires WellFormed(w) && Enabled(w, mv) && Dismantling(w, seen, n)
    requires n !in w.claims ==> n !in StepWorld(w, mv).claims
    ensures Ordered(seen, StepLog(w, mv), n) && Dismantling(StepWorld(w, mv), seen + StepLog(w, mv), n)
  {
    match mv {
      case Reconciling(m, _, _, _) =>
        StepContracted(w, mv);
        if m in w.claims {
          if m == n {
            ReconcileInOrder(w, StepLog(w, mv), StepWorld(w, mv), w.claims[m], seen, seen);
          } else {
            OthersInOrder(w, StepLog(w, mv), StepWorld(w, mv), w.claims[m], n, seen);
          }
        } else {
          assert seen + [] == seen;
        }
      case Migration(m) =>
        assert seen + [] == seen;
      case Other(next) =>
        assert seen + [] == seen;
    }
  }

  lemma OrderedJoin(seen: seq<Entry>, log: seq<Entry>, later: seq<Entry>, n: string, w': World)
    requires Ordered(seen, log, n) && Ordered(seen + log, later, n) && Dismantling(w', seen + log + later, n)
    ensures Ordered(seen, log + later, n) && Dismantling(w', seen + (log + later), n)
  {
    OrderedAppend(seen, log, later, n);
    assert seen + log + later == seen + (log + later);
  }

  lemma {:induction false} RunInOrder(w: World, moves: seq<Move>, n: string, seen: seq<Entry>)
    requires WellFormed(w) && Run(w, moves) && NotRecreated(w, moves, n) && Dismantling(w, seen, n)
    ensures Ordered(seen, Trace(w, moves), n) && Dismantling(After(w, moves), seen + Trace(w, moves), n)
    decreases |moves|
  {
    if moves == [] {
      assert seen + [] == seen;
    } else {
      var w1, log := StepWorld(w, moves[0]), StepLog(w, moves[0]);
      StepKeepsForm(w, moves[0]);
      StepInOrder(w, moves[0], n, seen);
      RunInOrder(w1, moves[1..], n, seen + log);
      OrderedJoin(seen, log, Trace(w1, moves[1..]), n, After(w1, moves[1..]));
    }
  }

  // The deletion of a fully provisioned claim: however the run goes on, every write for the
  // claim is in order with respect to the writes before it.
  lemma DeletionInOrder(w: World, moves: seq<Move>, n: string, i: nat)
    requires WellFormed(w) && Run(w, moves) && NotRecreated(w, moves, n)
    requires n in w.claims && TearingDown(w.claims[n])
    requires IsTrue(w.claims[n].conditions, StorageClassCreated) && IsTrue(w.claims[n].conditions, FileSystemCreated)
    requires IsTrue(w.claims[n].conditions, LocalDiskCreated)
    requires i < |Trace(w, moves)|
    ensures InOrder(Trace(w, moves)[..i], Trace(w, moves)[i], n)
    ensures n in After(w, moves).claims ==> TearingDown(After(w, moves).claims[n])
  {
    RunInOrder(w, moves, n, []);
    OrderedAt([], Trace(w, moves), n, i);
    assert [] + Trace(w, moves)[..i] == Trace(w, moves)[..i];
  }

  // ---- nothing is left behind ----

  predicate NoOwnedFilesystem(w: World, n: string) {
    forall f :: f in w.filesystems ==> !OwnedBy(f.owners, n)
  }

  predicate NoOwnedDisk(w: World, n: string) {
    forall d :: d in w.disks ==> !OwnedBy(d.owners, n)
  }

  // A resource whose condition is not True is really absent.
  predicate Absent(w: World, conditions: seq<Condition>, n: string) {
    && (IsTrue(conditions, FileSystemCreated) || NoOwnedFilesystem(w, n))
    && (IsTrue(conditions, LocalDiskCreated) || NoOwnedDisk(w, n))
  }

  predicate Vacating(w: World, n: string) {
    n in w.claims ==> TearingDown(w.claims[n]) && Absent(w, w.claims[n].conditions, n)
  }

  // Disks go only when no filesystem is left, the claim only when neither is left.
  predicate Clean(e: Entry, n: string) {
    e.action.claim == n ==>
      && (e.action.DeletedDisk? ==> NoOwnedFilesystem(e.before, n))
      && (e.action.RemovedFinalizer? ==> NoOwnedFilesystem(e.before, n) && NoOwnedDisk(e.before, n))
  }

  lemma FilesystemsNotGained(e: Entry, c: Claim, n: string)
    requires Allowed(e, c) && (c.name == n ==> TearingDown(c)) && NoOwnedFilesystem(e.before, n)
    ensures NoOwnedFilesystem(Effect(e.before, e.action), n)
  {
    var w, w' := e.before, Effect(e.before, e.action);
    forall f' | f' in w'.filesystems ensures !OwnedBy(f'.owners, n) {
      if f' !in w.filesystems && !e.action.CreatedFilesystem? {
        var i :| 0 <= i < |w'.filesystems| && w'.filesystems[i] == f';
        assert w.filesystems[i] in w.filesystems;
      }
    }
  }

  lemma DisksNotGained(e: Entry, c: Claim, n: string)
    requires Allowed(e, c) && (c.name == n ==> TearingDown(c)) && NoOwnedDisk(e.before, n)
    ensures NoOwnedDisk(Effect(e.before, e.action), n)
  {
    var w, w' := e.before, Effect(e.before, e.action);
    forall d' | d' in w'.disks ensures !OwnedBy(d'.owners, n) {
      if d' !in w.disks && !e.action.CreatedDisk? {
        var i :| 0 <= i < |w'.disks| && w'.disks[i] == d';
        assert w.disks[i] in w.disks;
      }
    }
  }

  // No allowed write of a teardown, nor of another claim, makes something owned by n.
  lemma NothingGained(e: Entry, c: Claim, n: string)
    requires Allowed(e, c) && (c.name == n ==> TearingDown(c))
    ensures NoOwnedFilesystem(e.before, n) ==> NoOwnedFilesystem(Effect(e.before, e.action), n)
    ensures NoOwnedDisk(e.before, n) ==> NoOwnedDisk(Effect(e.before, e.action), n)
  {
    if NoOwnedFilesystem(e.before, n) {
      FilesystemsNotGained(e, c, n);
    }
    if NoOwnedDisk(e.before, n) {
      DisksNotGained(e, c, n);
    }
  }

  lemma EffectKeepsVacating(e: Entry, c: Claim)
    requires WellFormed(e.before) && Allowed(e, c) && TearingDown(c) && Vacating(e.before, c.name)
    ensures Vacating(Effect(e.before, e.action), c.name)
  {
    NothingGained(e, c, c.name);
    if e.action.WroteStatus? {
      var old_, news := e.before.claims[c.name].conditions, e.action.news;
      assert OwnedFilesystems(e.before.filesystems, c.name) == [] ==> NoOwnedFilesystem(e.before, c.name);
      assert OwnedDisks(e.before.disks, c.name) == [] ==> NoOwnedDisk(e.before, c.name);
      if IsTrue(old_, FileSystemCreated) && forall x :: x in news ==> x.kind != FileSystemCreated {
        StaysTrue(old_, news, FileSystemCreated);
      }
      if IsTrue(old_, LocalDiskCreated) && forall x :: x in news ==> x.kind != LocalDiskCreated {
        StaysTrue(old_, news, LocalDiskCreated);
      }
    }
  }

  lemma {:induction false} ReconcileIsClean(u: World, writes: seq<Entry>, u': World, c: Claim)
    requires WellFormed(u) && Replay(u, writes, u') && AllAllowed(writes, c) && TearingDown(c)
    requires Absent(u, c.conditions, c.name) && Vacating(u, c.name)
    ensures Vacating(u', c.name) && forall e :: e in writes ==> Clean(e, c.name)
    decreases |writes|
  {
    if writes != [] {
      var e := writes[0];
      assert Allowed(e, c) && Clean(e, c.name);
      EffectKeepsForm(e, c);
      EffectKeepsVacating(e, c);
      NothingGained(e, c, c.name);
      ReconcileIsClean(Effect(u, e.action), writes[1..], u', c);
    }
  }

  lemma {:induction false} OthersAreClean(u: World, writes: seq<Entry>, u': World, c: Claim, n: string)
    requires Replay(u, writes, u') && AllAllowed(writes, c) && c.name != n && Vacating(u, n)
    ensures Vacating(u', n) && forall e :: e in writes ==> Clean(e, n)
    decreases |writes|
  {
    if writes != [] {
      OthersKeepClaim(writes[0], c, n);
      NothingGained(writes[0], c, n);
      OthersAreClean(Effect(u, writes[0].action), writes[1..], u', c, n);
    }
  }

  lemma EnvironmentGivesNothing(w: World, w': World, n: string)
    requires Environment(w, w')
    ensures NoOwnedFilesystem(w, n) ==> NoOwnedFilesystem(w', n)
    ensures NoOwnedDisk(w, n) ==> NoOwnedDisk(w', n)
  {
  }

  // The migration adopts nothing of a kind that the claim's deletion has seen absent.
  predicate Spares(w: World, m: Mishaps, n: string)
    requires n in w.claims
  {
    && (IsTrue(w.claims[n].conditions, FileSystemCreated) ||
        forall f :: f in w.filesystems && f.name == n ==> !AdoptsFilesystem(w, Keys(w.disks), m, f))
    && (IsTrue(w.claims[n].conditions, LocalDiskCreated) ||
        forall d :: d in w.disks && d.filesystem == n ==> !AdoptsDisk(w, Keys(w.disks), m, d))
  }

  // A migration without a legacy disk of the claim's name adopts nothing for it.
  lemma NothingLegacySpares(w: World, m: Mishaps, n: string)
    requires n in w.claims && n !in Keys(w.disks)
    ensures Spares(w, m, n)
  {
  }

  lemma NoFilesystemIff(w: World, m: Mishaps, n: string)
    ensures NoOwnedFilesystem(Migrate(w, m), n) <==>
      NoOwnedFilesystem(w, n)
      && forall f :: f in w.filesystems && f.name == n ==> !AdoptsFilesystem(w, Keys(w.disks), m, f)
  {
    var fs, fs' := w.filesystems, Migrate(w, m).filesystems;
    forall i | 0 <= i < |fs|
      ensures fs[i] in fs && fs'[i] in fs'
      ensures OwnedBy(fs'[i].owners, n) <==>
        OwnedBy(fs[i].owners, n) || (fs[i].name == n && AdoptsFilesystem(w, Keys(w.disks), m, fs[i]))
    {
      MigrationProofs.FilesystemFor(w, m, n, i);
    }
  }

  lemma NoDiskIff(w: World, m: Mishaps, n: string)
    ensures NoOwnedDisk(Migrate(w, m), n) <==>
      NoOwnedDisk(w, n) && forall d :: d in w.disks && d.filesystem == n ==> !AdoptsDisk(w, Keys(w.disks), m, d)
  {
    var ds, ds' := w.disks, Migrate(w, m).disks;
    forall i | 0 <= i < |ds|
      ensures ds[i] in ds && ds'[i] in ds'
      ensures OwnedBy(ds'[i].owners, n) <==>
        OwnedBy(ds[i].owners, n) || (ds[i].filesystem == n && AdoptsDisk(w, Keys(w.disks), m, ds[i]))
    {
      MigrationProofs.AdoptedFor(w, m, n, i);
    }
  }

  // Exactly the migrations that spare the claim keep what its deletion has taken apart.
  lemma MigrationKeepsVacatingIff(w: World, m: Mishaps, n: string)
    requires n in w.claims && Vacating(w, n)
    ensures Vacating(Migrate(w, m), n) <==> Spares(w, m, n)
  {
    MigrationProofs.ClaimAfter(w, m, n);
    NoFilesystemIff(w, m, n);
    NoDiskIff(w, m, n);
  }

  lemma StepIsClean(w: World, mv: Move, n: string)
    requires WellFormed(w) && Enabled(w, mv) && Vacating(w, n)
    requires mv.Migration? && n in w.claims ==> Spares(w, mv.mishaps, n)
    requires n !in w.claims ==> n !in StepWorld(w, mv).claims
    ensures Vacating(StepWorld(w, mv), n) && forall e :: e in StepLog(w, mv) ==> Clean(e, n)
  {
    match mv {
      case Reconciling(m, _, _, _) =>
        StepContracted(w, mv);
        if m in w.claims {
          if m == n {
            ReconcileIsClean(w, StepLog(w, mv), StepWorld(w, mv), w.claims[m]);
          } else {
            OthersAreClean(w, StepLog(w, mv), StepWorld(w, mv), w.claims[m], n);
          }
        }
      case Migration(m) =>
        if n in w.claims {
          MigrationKeepsVacatingIff(w, m, n);
        }
      case Other(next) => EnvironmentGivesNothing(w, next, n);
    }
  }

  // Every migration of the run spares the claim.
  predicate SparedRun(w: World, moves: seq<Move>, n: string)
    decreases |moves|
  {
    moves == [] ||
    ((moves[0].Migration? && n in w.claims ==> Spares(w, moves[0].mishaps, n))
     && SparedRun(StepWorld(w, moves[0]), moves[1..], n))
  }

  // In every world of the run what the deletion has seen absent is absent.
  predicate VacatingRun(w: World, moves: seq<Move>, n: string)
    decreases |moves|
  {
    Vacating(w, n) && (moves == [] || VacatingRun(StepWorld(w, moves[0]), moves[1..], n))
  }

  // What a deletion has seen absent stays absent throughout a run exactly if the migrations of the
  // run spare the claim. Then the deletion leaves nothing behind: disks go only when no filesystem
  // of the claim exists any more, the finalizer only when no disk does either.
  lemma {:induction false} NothingLeftBehind(w: World, moves: seq<Move>, n: string)
    requires WellFormed(w) && Run(w, moves) && NotRecreated(w, moves, n) && Vacating(w, n)
    ensures VacatingRun(w, moves, n) <==> SparedRun(w, moves, n)
    ensures SparedRun(w, moves, n) ==> Vacating(After(w, moves), n) && forall e :: e in Trace(w, moves) ==> Clean(e, n)
    decreases |moves|
  {
    if moves != [] {
      var w1 := StepWorld(w, moves[0]);
      StepKeepsForm(w, moves[0]);
      if moves[0].Migration? && n in w.claims {
        MigrationKeepsVacatingIff(w, moves[0].mishaps, n);
      } else {
        StepIsClean(w, moves[0], n);
      }
      if Vacating(w1, n) {
        NothingLeftBehind(w1, moves[1..], n);
      }
    }
  }

  // ---- a migration that does not spare the claim ----

  const HANDED_BACK_DISK := LocalDisk("uuid.2", "/dev/b", "node", [], map[], None, "fs", false)
  const HANDED_BACK_FILESYSTEM := Filesystem("fs", BuildSpec(["uuid.2"]), [], map[], None, false)
  const REQUESTED := Condition(Ready, False, DeletionRequested, DeletionNotice, 0)

  // Everything of the claim is gone, only the finalizer is left to remove; beside it lie a legacy
  // disk and filesystem of the same name.
  const ALMOST_GONE := World(map["fs" := Claim("fs", ["/dev/a"], true, true, [REQUESTED], map[])],
    [HANDED_BACK_DISK], [HANDED_BACK_FILESYSTEM], map[], [], [], map[])

  lemma AlmostGoneVacates()
    ensures WellFormed(ALMOST_GONE) && TearingDown(ALMOST_GONE.claims["fs"]) && Vacating(ALMOST_GONE, "fs")
    ensures forall kind :: kind != Ready ==> !IsTrue([REQUESTED], kind)
  {
  }

  lemma BothHandedBack()
    ensures var w := Migrate(ALMOST_GONE, MigrationSpec.Calm(0));
      && w.claims == ALMOST_GONE.claims
      && w.disks == [AdoptDisk(HANDED_BACK_DISK, "fs")] && w.filesystems == [AdoptFilesystem(HANDED_BACK_FILESYSTEM, "fs")]
  {
    var w, m := ALMOST_GONE, MigrationSpec.Calm(0);
    assert HANDED_BACK_DISK in w.disks && HANDED_BACK_FILESYSTEM in w.filesystems;
    MigrationProofs.CalmReachesAll(GroupDisks(w.disks, "fs"), 0);
    assert HANDED_BACK_DISK in GroupDisks(w.disks, "fs");
    assert AdoptsDisk(w, Keys(w.disks), m, HANDED_BACK_DISK);
    assert AdoptsFilesystem(w, Keys(w.disks), m, HANDED_BACK_FILESYSTEM);
    assert forall g :: g in Migrate(w, m).claims <==> g in w.claims;
  }

  lemma OnlyFinalizerLeft(w: World)
    requires w.claims == ALMOST_GONE.claims
    ensures var s := State(w, [], [], 0, 0);
      Reconcile(s, "fs").s.log == [Entry(w, RemovedFinalizer("fs"))]
  {
    AlmostGoneVacates();
    var s, c := State(w, [], [], 0, 0), w.claims["fs"];
    assert c.conditions == [REQUESTED] && HasReason(c.conditions, Ready, DeletionRequested);
    DeletionNeverIdle(s, c);
    assert Reconcile(s, "fs") == HandleDeletion(s, c);
    assert HandleDeletion(s, c) == Teardown(s, c);
    assert Teardown(s, c) == RemoveFinalizerStage(s, c);
  }

  // The migration hands both to the claim although its deletion is about to end, and the next
  // reconcile removes the finalizer: disk and filesystem are left behind.
  lemma MigrationLeavesBehind()
    ensures var w := Migrate(ALMOST_GONE, MigrationSpec.Calm(0)); var r := Reconcile(State(w, [], [], 0, 0), "fs").s;
      && WellFormed(ALMOST_GONE) && TearingDown(ALMOST_GONE.claims["fs"]) && Vacating(ALMOST_GONE, "fs")
      && !Vacating(w, "fs")
      && r.log == [Entry(w, RemovedFinalizer("fs"))] && !Clean(r.log[0], "fs")
      && "fs" !in r.world.claims
  {
    AlmostGoneVacates();
    BothHandedBack();
    var w := Migrate(ALMOST_GONE, MigrationSpec.Calm(0));
    OnlyFinalizerLeft(w);
    assert w.disks[0] in w.disks && OwnedBy(w.disks[0].owners, "fs");
    assert w.filesystems[0] in w.filesystems && OwnedBy(w.filesystems[0].owners, "fs");
    FinalizerGone(w);
  }

  lemma FinalizerGone(w: World)
    requires w.claims == ALMOST_GONE.claims && WellFormed(w)
    ensures "fs" !in Reconcile(State(w, [], [], 0, 0), "fs").s.world.claims
  {
    var s := State(w, [], [], 0, 0);
    OnlyFinalizerLeft(w);
    ReconcileContracted(s, "fs");
    var t := Reconcile(s, "fs").s;
    assert New(s, t) == t.log;
    assert Replay(Effect(w, RemovedFinalizer("fs")), t.log[1..], t.world);
  }
}
