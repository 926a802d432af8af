/** What stays true of a claim over runs: filesystems are written for the claim's own devices
    only, the device match and the marks left by a migration last, and a migrated claim is
    never provisioned a second time. */
module ClaimLife {
  import opened Conditions
  import opened Cluster
  import opened ReconcilerSpec
  import opened ReadySoundness
  import opened WriteContract
  import opened MigrationSpec
  import opened Runs
  import opened Exclusivity
  import opened Readiness
  import MigrationProofs
  import Webhook

  // ---- the write gate, over runs ----

  // Every write of a run was allowed for some snapshot of its claim.
  lemma {:induction false} TraceAllowed(w: World, moves: seq<Move>, e: Entry) returns (c: Claim)
    requires WellFormed(w) && Run(w, moves) && e in Trace(w, moves)
    ensures Allowed(e, c)
    decreases |moves|
  {
    StepAllowed(w, moves[0]);
    if e in StepLog(w, moves[0]) {
      c := w.claims[moves[0].claim];
    } else {
      StepKeepsForm(w, moves[0]);
      c := TraceAllowed(StepWorld(w, moves[0]), moves[1..], e);
    }
  }

  lemma StepAllowed(w: World, mv: Move)
    requires WellFormed(w)
    ensures forall e :: e in StepLog(w, mv) ==> mv.Reconciling? && mv.claim in w.claims && Allowed(e, w.claims[mv.claim])
  {
    if mv.Reconciling? {
      StepContracted(w, mv);
    }
  }

  predicate WritesFilesystem(a: Action) {
    a.CreatedFilesystem? || a.PatchedFilesystem?
  }

  lemma GateOfAllowed(e: Entry, c: Claim)
    requires Allowed(e, c) && WritesFilesystem(e.action)
    ensures DisksVerified(e.before, e.action.claim)
    ensures PoolDisks(e.action) == set d | d in OwnedDisks(e.before.disks, e.action.claim) :: d.name
  {
    var owned := OwnedDisks(e.before.disks, c.name);
    PoolOfSpec(DiskNames(owned));
    assert forall i :: 0 <= i < |owned| ==> DiskNames(owned)[i] == owned[i].name;
  }

  // A filesystem is only ever created or patched in a world in which the claim's owned disks are
  // exactly those of its devices, all usable; and the pool written lists exactly these disks.
  lemma FilesystemGate(w: World, moves: seq<Move>, e: Entry)
    requires WellFormed(w) && Run(w, moves) && e in Trace(w, moves) && WritesFilesystem(e.action)
    ensures DisksVerified(e.before, e.action.claim)
    ensures PoolDisks(e.action) == set d | d in OwnedDisks(e.before.disks, e.action.claim) :: d.name
  {
    var c := TraceAllowed(w, moves, e);
    GateOfAllowed(e, c);
  }

  lemma MismatchStops(s: State, c: Claim)
    requires IsTrue(c.conditions, LocalDiskCreated)
    requires DeviceSet(OwnedDisks(s.world.disks, c.name)) != ToSet(c.devices)
    ensures Provision(s, c) == CheckDevices(s, c)
  {
    assert EnsureLocalDisks(s, c) == CheckDevices(s, c);
    assert CheckDevices(s, c).out != Continue;
  }

  lemma MismatchWrites(s: State, c: Claim)
    requires DeviceSet(OwnedDisks(s.world.disks, c.name)) != ToSet(c.devices)
    ensures var t := CheckDevices(s, c).s;
      && s.log <= t.log
      && forall e :: e in New(s, t) ==>
           e.action.WroteStatus? && forall x :: x in e.action.news ==> x.kind == Ready && x.status == False
  {
  }

  // When the devices do not match the owned disks although LocalDiskCreated is True, a reconcile
  // of the live claim only reports it.
  lemma MismatchOnlyReported(s: State, c: Claim)
    requires Snapshot(s, c) && IsTrue(c.conditions, LocalDiskCreated)
    requires DeviceSet(OwnedDisks(s.world.disks, c.name)) != ToSet(c.devices)
    ensures var t := Provision(s, c).s;
      && s.log <= t.log
      && forall e :: e in New(s, t) ==>
           e.action.WroteStatus? && forall x :: x in e.action.news ==> x.kind == Ready && x.status == False
  {
    MismatchStops(s, c);
    MismatchWrites(s, c);
  }

  // ---- the device match lasts ----

  // The claim is live, LocalDiskCreated is True.
  predicate Established(w: World, n: string) {
    n in w.claims && !w.claims[n].deleting && IsTrue(w.claims[n].conditions, LocalDiskCreated)
  }

  // Its owned disks are exactly those of its devices, and none is on its way out.
  predicate Matching(w: World, n: string) {
    && n in w.claims
    && DeviceSet(OwnedDisks(w.disks, n)) == ToSet(w.claims[n].devices)
    && (forall d :: d in OwnedDisks(w.disks, n) ==> !d.terminating)
  }

  // No disk of the claim is new, up to its status.
  predicate NoDiskGained(w: World, w': World, n: string) {
    forall d' :: d' in OwnedDisks(w'.disks, n) ==>
      exists d :: d in OwnedDisks(w.disks, n) && d.device == d'.device && d.terminating == d'.terminating
  }

  predicate NoDiskLost(w: World, w': World, n: string) {
    forall d :: d in OwnedDisks(w.disks, n) ==> exists d' :: d' in OwnedDisks(w'.disks, n) && d'.device == d.device
  }

  predicate SameDisks(w: World, w': World, n: string) {
    NoDiskGained(w, w', n) && NoDiskLost(w, w', n)
  }

  lemma SameDisksMatch(w: World, w': World, n: string)
    requires Matching(w, n) && SameDisks(w, w', n) && n in w'.claims && w'.claims[n].devices == w.claims[n].devices
    ensures Matching(w', n)
  {
  }

  // Only the claim's own creation path and teardowns touch its disks.
  lemma EffectKeepsDisks(e: Entry, c: Claim, n: string)
    requires WellFormed(e.before) && Exclusive(e.before.disks) && Allowed(e, c)
    requires c.name == n ==> !TearingDown(c) && IsTrue(c.conditions, LocalDiskCreated)
    ensures SameDisks(e.before, Effect(e.before, e.action), n)
  {
    var w, w' := e.before, Effect(e.before, e.action);
    if e.action.DeletedDisk? {
      OthersDeletion(w, c, e.action.disk.name, n);
    } else if e.action.CreatedDisk? {
      OthersCreation(w, c, e.action.disk, n);
    } else {
      assert w'.disks == w.disks;
    }
  }

  lemma OthersCreation(w: World, c: Claim, d: LocalDisk, n: string)
    requires d.owners == [ClaimRef(c.name)] && c.name != n
    ensures SameDisks(w, w.(disks := w.disks + [d]), n)
  {
  }

  lemma OthersDeletion(w: World, c: Claim, name: string, n: string)
    requires DistinctDiskNames(w.disks) && Exclusive(w.disks) && Holds(w, c.name, name) && c.name != n
    ensures SameDisks(w, w.(disks := TerminatedDisk(w.disks, name)), n)
  {
    forall i | 0 <= i < |w.disks| && OwnedBy(w.disks[i].owners, n) ensures w.disks[i].name != name {
      if w.disks[i].name == name {
        assert w.disks[i] in w.disks;
        OneHolder(w, n, c.name, name);
      }
    }
    TerminationKeepsOthers(w, name, n);
  }

  lemma TerminationKeepsOthers(w: World, name: string, n: string)
    requires forall i :: 0 <= i < |w.disks| && OwnedBy(w.disks[i].owners, n) ==> TerminatedDisk(w.disks, name)[i] == w.disks[i]
    ensures SameDisks(w, w.(disks := TerminatedDisk(w.disks, name)), n)
  {
    var ds := TerminatedDisk(w.disks, name);
    forall d' | d' in OwnedDisks(ds, n) ensures d' in OwnedDisks(w.disks, n) {
      var i :| 0 <= i < |ds| && ds[i] == d';
      assert OwnedBy(w.disks[i].owners, n);
    }
    forall d | d in OwnedDisks(w.disks, n) ensures d in OwnedDisks(ds, n) {
      var i :| 0 <= i < |w.disks| && w.disks[i] == d;
      assert ds[i] == d;
    }
  }

  lemma EffectKeepsDevices(e: Entry, c: Claim, n: string)
    requires Allowed(e, c) && (c.name == n ==> !TearingDown(c))
    ensures var w' := Effect(e.before, e.action);
      n in e.before.claims ==> n in w'.claims && w'.claims[n].devices == e.before.claims[n].devices
  {
  }

  lemma OthersKeepConditions(e: Entry, c: Claim, n: string)
    requires Allowed(e, c) && c.name != n && n in e.before.claims
    ensures var w := Effect(e.before, e.action); n in w.claims && w.claims[n] == e.before.claims[n]
  {
  }

  lemma {:induction false} ReplayKeepsMatch(w: World, writes: seq<Entry>, w': World, c: Claim, n: string)
    requires WellFormed(w) && Exclusive(w.disks) && Replay(w, writes, w') && AllAllowed(writes, c)
    requires c.name == n ==> !TearingDown(c) && IsTrue(c.conditions, LocalDiskCreated)
    requires Matching(w, n)
    ensures Matching(w', n) && w'.claims[n].devices == w.claims[n].devices
    decreases |writes|
  {
    if writes != [] {
      var e := writes[0];
      EffectKeepsForm(e, c);
      EffectKeepsExclusive(e, c);
      EffectKeepsDisks(e, c, n);
      EffectKeepsDevices(e, c, n);
      SameDisksMatch(w, Effect(w, e.action), n);
      ReplayKeepsMatch(Effect(w, e.action), writes[1..], w', c, n);
    }
  }

  lemma OwnedInherited(w: World, w': World, n: string, d': LocalDisk)
    requires DisksInherited(w, w') && d' in OwnedDisks(w'.disks, n)
    ensures exists d :: d in OwnedDisks(w.disks, n) && d.device == d'.device && d.terminating == d'.terminating
  {
    assert ClaimRef(n) in d'.owners;
    var d :| d in w.disks && DiskEvolved(d, d');
    assert d in OwnedDisks(w.disks, n);
  }

  lemma OwnedPersists(w: World, w': World, n: string, d: LocalDisk)
    requires DisksPersist(w, w') && d in OwnedDisks(w.disks, n) && !d.terminating
    ensures exists d' :: d' in OwnedDisks(w'.disks, n) && d'.device == d.device
  {
    var d' :| d' in w'.disks && DiskEvolved(d, d');
    assert d' in OwnedDisks(w'.disks, n);
  }

  lemma EnvironmentKeepsMatch(w: World, w': World, n: string)
    requires DisksInherited(w, w') && DisksPersist(w, w') && Matching(w, n)
    requires n in w'.claims && w'.claims[n].devices == w.claims[n].devices
    ensures Matching(w', n)
  {
    forall d' | d' in OwnedDisks(w'.disks, n) {
      OwnedInherited(w, w', n, d');
    }
    forall d | d in OwnedDisks(w.disks, n) {
      OwnedPersists(w, w', n, d);
    }
    SameDisksMatch(w, w', n);
  }

  lemma StepKeepsMatch(w: World, mv: Move, n: string)
    requires WellFormed(w) && Exclusive(w.disks) && Enabled(w, mv) && !mv.Migration?
    requires Established(w, n) && Matching(w, n) && n in StepWorld(w, mv).claims
    ensures Matching(StepWorld(w, mv), n)
  {
    match mv {
      case Reconciling(m, _, _, _) =>
        StepContracted(w, mv);
        if m in w.claims {
          ReplayKeepsMatch(w, StepLog(w, mv), StepWorld(w, mv), w.claims[m], n);
        }
      case Other(next) =>
        Webhook.BlocksExactly(w.claims[n], next.claims[n].devices);
        EnvironmentKeepsMatch(w, next, n);
    }
  }

  // ---- the device match and migrations ----

  // Every disk the migration is going to adopt for the claim has one of the claim's devices and
  // is not on its way out.
  predicate Fitting(w: World, m: Mishaps, n: string)
    requires n in w.claims
  {
    forall d :: d in w.disks && d.filesystem == n && AdoptsDisk(w, Keys(w.disks), m, d) ==>
      d.device in w.claims[n].devices && !d.terminating
  }

  // A migration without a legacy disk of the claim's name adopts nothing for it.
  lemma NothingLegacyFits(w: World, m: Mishaps, n: string)
    requires n in w.claims && n !in Keys(w.disks)
    ensures Fitting(w, m, n)
  {
  }

  lemma MigratedDevice(w: World, m: Mishaps, n: string, e: LocalDisk)
    requires Matching(w, n) && Fitting(w, m, n) && e in OwnedDisks(Migrate(w, m).disks, n)
    ensures !e.terminating && (e.device != "" ==> e.device in w.claims[n].devices)
  {
    var ds := Migrate(w, m).disks;
    var i :| 0 <= i < |ds| && ds[i] == e;
    MigrationProofs.AdoptedFor(w, m, n, i);
    var d := w.disks[i];
    assert d in w.disks;
    if OwnedBy(d.owners, n) {
      assert d in OwnedDisks(w.disks, n);
      assert d.device != "" ==> d.device in DeviceSet(OwnedDisks(w.disks, n));
    }
  }

  lemma DeviceKept(w: World, m: Mishaps, n: string, x: string)
    requires x in DeviceSet(OwnedDisks(w.disks, n))
    ensures x in DeviceSet(OwnedDisks(Migrate(w, m).disks, n))
  {
    var d :| d in OwnedDisks(w.disks, n) && d.device == x && d.device != "";
    var i :| 0 <= i < |w.disks| && w.disks[i] == d;
    MigrationProofs.AdoptedFor(w, m, n, i);
    assert Migrate(w, m).disks[i] in OwnedDisks(Migrate(w, m).disks, n);
  }

  lemma FittingKeepsMatch(w: World, m: Mishaps, n: string)
    requires Matching(w, n) && Fitting(w, m, n)
    ensures Matching(Migrate(w, m), n)
  {
    MigrationProofs.ClaimAfter(w, m, n);
    var owned, devices := OwnedDisks(Migrate(w, m).disks, n), w.claims[n].devices;
    forall e | e in owned ensures !e.terminating && (e.device != "" ==> e.device in devices) {
      MigratedDevice(w, m, n, e);
    }
    forall x | x in devices ensures x in DeviceSet(owned) {
      assert x in ToSet(devices);
      DeviceKept(w, m, n, x);
    }
    MigrationProofs.SameSet(DeviceSet(owned), devices);
  }

  lemma MisfitBreaksMatch(w: World, m: Mishaps, n: string)
    requires Matching(w, n) && !Fitting(w, m, n)
    ensures !Matching(Migrate(w, m), n)
  {
    MigrationProofs.ClaimAfter(w, m, n);
    var d :| d in w.disks && d.filesystem == n && AdoptsDisk(w, Keys(w.disks), m, d)
      && !(d.device in w.claims[n].devices && !d.terminating);
    var i :| 0 <= i < |w.disks| && w.disks[i] == d;
    MigrationProofs.AdoptedFor(w, m, n, i);
    var e := Migrate(w, m).disks[i];
    assert e in OwnedDisks(Migrate(w, m).disks, n);
    assert e.device in DeviceSet(OwnedDisks(Migrate(w, m).disks, n));
  }

  // Exactly the migrations that adopt only fitting disks keep the match.
  lemma MigrationKeepsMatchIff(w: World, m: Mishaps, n: string)
    requires Matching(w, n)
    ensures Matching(Migrate(w, m), n) <==> Fitting(w, m, n)
  {
    if Fitting(w, m, n) {
      FittingKeepsMatch(w, m, n);
    } else {
      MisfitBreaksMatch(w, m, n);
    }
  }

  const ADOPTED := LocalDisk("uuid.1", "/dev/a", "node", [ClaimRef("fs")], map[], None, "fs", false)
  const LEGACY := LocalDisk("uuid.2", "/dev/b", "node", [], map[], None, "fs", false)
  const OWN_FILESYSTEM := Filesystem("fs", BuildSpec(["uuid.1"]), [ClaimRef("fs")], map[], None, false)
  const DISK_CONDITION := Condition(LocalDiskCreated, True, LocalDiskCreationSucceeded, AllDisksReady(1), 0)
  const ESTABLISHED := Claim("fs", ["/dev/a"], true, false, [DISK_CONDITION], map[])
  const INTRUDED := World(map["fs" := ESTABLISHED], [ADOPTED, LEGACY], [OWN_FILESYSTEM], map[], [], [], map[])

  lemma IntrudedMatches()
    ensures WellFormed(INTRUDED) && Exclusive(INTRUDED.disks) && Established(INTRUDED, "fs") && Matching(INTRUDED, "fs")
  {
    assert DISK_CONDITION in ESTABLISHED.conditions;
    assert OwnedDisks(INTRUDED.disks, "fs") == [ADOPTED] by {
      assert [ADOPTED, LEGACY][1..] == [LEGACY] && [LEGACY][1..] == [];
      assert OwnedDisks([LEGACY], "fs") == OwnedDisks([], "fs");
    }
    assert DeviceSet([ADOPTED]) == {"/dev/a"} && ToSet(["/dev/a"]) == {"/dev/a"};
  }

  lemma LegacyIsAdopted()
    ensures AdoptsDisk(INTRUDED, Keys(INTRUDED.disks), Calm(0), LEGACY)
  {
    assert LEGACY in INTRUDED.disks && OWN_FILESYSTEM in INTRUDED.filesystems;
    MigrationProofs.CalmReachesAll(GroupDisks(INTRUDED.disks, "fs"), 0);
    assert LEGACY in GroupDisks(INTRUDED.disks, "fs");
  }

  lemma LegacyMisfits()
    ensures !Fitting(INTRUDED, Calm(0), "fs")
  {
    LegacyIsAdopted();
    assert LEGACY in INTRUDED.disks;
  }

  // Not all do: a legacy disk that names the filesystem of an established claim is adopted for it,
  // although the claim does not list its device.
  lemma MigrationBreaksMatch()
    ensures WellFormed(INTRUDED) && Exclusive(INTRUDED.disks) && Established(INTRUDED, "fs") && Matching(INTRUDED, "fs")
    ensures var w := Migrate(INTRUDED, Calm(0)); Established(w, "fs") && !Matching(w, "fs")
  {
    IntrudedMatches();
    LegacyMisfits();
    MigrationKeepsMatchIff(INTRUDED, Calm(0), "fs");
    MigrationProofs.ClaimAfter(INTRUDED, Calm(0), "fs");
  }

  // In every world of the run the claim is live and LocalDiskCreated is True.
  predicate EstablishedRun(w: World, moves: seq<Move>, n: string)
    decreases |moves|
  {
    Established(w, n) && (moves == [] || EstablishedRun(StepWorld(w, moves[0]), moves[1..], n))
  }

  predicate MatchingRun(w: World, moves: seq<Move>, n: string)
    decreases |moves|
  {
    Matching(w, n) && (moves == [] || MatchingRun(StepWorld(w, moves[0]), moves[1..], n))
  }

  // Every migration of the run adopts only fitting disks for the claim.
  predicate FittingRun(w: World, moves: seq<Move>, n: string)
    decreases |moves|
  {
    moves == [] ||
    ((moves[0].Migration? ==> n in w.claims && Fitting(w, moves[0].mishaps, n))
     && FittingRun(StepWorld(w, moves[0]), moves[1..], n))
  }

  lemma StepKeepsMatchIff(w: World, mv: Move, n: string)
    requires WellFormed(w) && Exclusive(w.disks) && Enabled(w, mv)
    requires Established(w, n) && Matching(w, n) && n in StepWorld(w, mv).claims
    ensures Matching(StepWorld(w, mv), n) <==> (mv.Migration? ==> Fitting(w, mv.mishaps, n))
  {
    if mv.Migration? {
      MigrationKeepsMatchIff(w, mv.mishaps, n);
    } else {
      StepKeepsMatch(w, mv, n);
    }
  }

  // With the webhook in place, once the devices match they match for as long as LocalDiskCreated
  // stays True, whatever users, other claims and failing calls do, if and only if the migrations
  // of the run adopt only fitting disks.
  lemma {:induction false} MatchLasts(w: World, moves: seq<Move>, n: string)
    requires WellFormed(w) && Exclusive(w.disks) && Run(w, moves) && Matching(w, n) && EstablishedRun(w, moves, n)
    ensures MatchingRun(w, moves, n) <==> FittingRun(w, moves, n)
    ensures FittingRun(w, moves, n) ==> Matching(After(w, moves), n)
    decreases |moves|
  {
    if moves != [] {
      var w1 := StepWorld(w, moves[0]);
      StepKeepsForm(w, moves[0]);
      StepKeepsExclusive(w, moves[0]);
      assert EstablishedRun(w1, moves[1..], n);
      StepKeepsMatchIff(w, moves[0], n);
      if Matching(w1, n) {
        MatchLasts(w1, moves[1..], n);
      }
    }
  }

  // ---- marks of the migration ----

  // While a condition left by the migration keeps being True in a reconcile, it stays as it was.
  lemma {:induction false} ReplayKeepsMark(u: World, writes: seq<Entry>, u': World, c: Claim, n: string, kind: ConditionType)
    requires WellFormed(u) && Replay(u, writes, u') && AllAllowed(writes, c) && n in u.claims
    requires c.name == n ==> HasReason(c.conditions, kind, MigrationComplete)
    ensures n in u'.claims ==>
      var f := Find(u'.claims[n].conditions, kind);
      f == Find(u.claims[n].conditions, kind) || (f.Some? && f.value.status != True)
    decreases |writes|
  {
    if writes != [] {
      var e := writes[0];
      assert Allowed(e, c);
      EffectKeepsForm(e, c);
      if c.name == n && e.action.WroteStatus? {
        KeptOrNotTrue(u.claims[n].conditions, e.action.news, kind);
      }
      var next := Effect(u, e.action);
      if n in next.claims {
        ReplayKeepsMark(next, writes[1..], u', c, n, kind);
      } else {
        GoneForGood(next, writes[1..], u', c, n);
      }
    }
  }

  lemma {:induction false} GoneForGood(u: World, writes: seq<Entry>, u': World, c: Claim, n: string)
    requires Replay(u, writes, u') && AllAllowed(writes, c) && n !in u.claims
    ensures n !in u'.claims
    decreases |writes|
  {
    if writes != [] {
      assert Allowed(writes[0], c);
      GoneForGood(Effect(u, writes[0].action), writes[1..], u', c, n);
    }
  }

  // In every world of the run the first condition of the type is True.
  predicate SaysRun(w: World, moves: seq<Move>, n: string, kind: ConditionType)
    decreases |moves|
  {
    n in w.claims && Says(w.claims[n].conditions, kind)
    && (moves == [] || SaysRun(StepWorld(w, moves[0]), moves[1..], n, kind))
  }

  lemma StepKeepsMark(w: World, mv: Move, n: string, kind: ConditionType)
    requires WellFormed(w) && Enabled(w, mv) && n in w.claims && HasReason(w.claims[n].conditions, kind, MigrationComplete)
    requires n in StepWorld(w, mv).claims && Says(StepWorld(w, mv).claims[n].conditions, kind)
    ensures Find(StepWorld(w, mv).claims[n].conditions, kind) == Find(w.claims[n].conditions, kind)
  {
    if mv.Reconciling? {
      StepContracted(w, mv);
      if mv.claim in w.claims {
        ReplayKeepsMark(w, StepLog(w, mv), StepWorld(w, mv), w.claims[mv.claim], n, kind);
      }
    }
  }

  // A condition left by the migration is never replaced by another True condition without
  // first going False: as long as the type stays True, it is still the migration's condition.
  lemma {:induction false} MarkLasts(w: World, moves: seq<Move>, n: string, kind: ConditionType)
    requires WellFormed(w) && Run(w, moves) && SaysRun(w, moves, n, kind)
    requires HasReason(w.claims[n].conditions, kind, MigrationComplete)
    ensures n in After(w, moves).claims
    ensures Find(After(w, moves).claims[n].conditions, kind) == Find(w.claims[n].conditions, kind)
    decreases |moves|
  {
    if moves != [] {
      StepKeepsForm(w, moves[0]);
      StepKeepsMark(w, moves[0], n, kind);
      MarkLasts(StepWorld(w, moves[0]), moves[1..], n, kind);
    }
  }

  // Conditions with the migration's reason are True, for every claim.
  predicate MarksTrue(w: World) {
    forall n :: n in w.claims ==> MigratedTrue(w.claims[n].conditions)
  }

  lemma EffectKeepsMarksTrue(e: Entry, c: Claim)
    requires Allowed(e, c) && MarksTrue(e.before)
    ensures MarksTrue(Effect(e.before, e.action))
  {
    var w' := Effect(e.before, e.action);
    forall n | n in w'.claims ensures MigratedTrue(w'.claims[n].conditions) {
      forall x | x in w'.claims[n].conditions && x.reason == MigrationComplete ensures x.status == True {
        assert MigratedTrue(e.before.claims[n].conditions);
        if e.action.WroteStatus? && n == e.action.claim {
          UpdatedAllMembers(e.before.claims[n].conditions, e.action.news, x);
        }
      }
    }
  }

  lemma {:induction false} ReplayKeepsMarksTrue(u: World, writes: seq<Entry>, u': World, c: Claim)
    requires MarksTrue(u) && Replay(u, writes, u') && AllAllowed(writes, c)
    ensures MarksTrue(u')
    decreases |writes|
  {
    if writes != [] {
      assert Allowed(writes[0], c);
      EffectKeepsMarksTrue(writes[0], c);
      ReplayKeepsMarksTrue(Effect(u, writes[0].action), writes[1..], u', c);
    }
  }

  lemma NewClaimMarked(w: World, m: Mishaps, n: string)
    ensures MigratedTrue(NewClaim(w, n, m).conditions)
  {
    MigrationProofs.MigratedStatus(|GroupDisks(w.disks, n)|, n in w.classes, m.now);
  }

  lemma MigrationKeepsMarksTrue(w: World, m: Mishaps)
    requires MarksTrue(w)
    ensures MarksTrue(Migrate(w, m))
  {
    var cs := Migrate(w, m).claims;
    forall n | n in cs ensures MigratedTrue(cs[n].conditions) {
      MigrationProofs.ClaimAfter(w, m, n);
      NewClaimMarked(w, m, n);
    }
  }

  lemma StepKeepsMarksTrue(w: World, mv: Move)
    requires WellFormed(w) && MarksTrue(w) && Enabled(w, mv)
    ensures MarksTrue(StepWorld(w, mv))
  {
    match mv {
      case Reconciling(n, _, _, _) =>
        StepContracted(w, mv);
        if n in w.claims {
          ReplayKeepsMarksTrue(w, StepLog(w, mv), StepWorld(w, mv), w.claims[n]);
        }
      case Migration(m) => MigrationKeepsMarksTrue(w, m);
      case Other(next) =>
    }
  }

  // Throughout every run the conditions left by migrations are True.
  lemma {:induction false} RunKeepsMarksTrue(w: World, moves: seq<Move>)
    requires WellFormed(w) && MarksTrue(w) && Run(w, moves)
    ensures MarksTrue(After(w, moves))
    decreases |moves|
  {
    if moves != [] {
      StepKeepsForm(w, moves[0]);
      StepKeepsMarksTrue(w, moves[0]);
      RunKeepsMarksTrue(StepWorld(w, moves[0]), moves[1..]);
    }
  }
}
