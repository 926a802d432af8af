/** A fresh claim is provisioned in exactly nine writing reconciles once its resources are healthy,
    however long they take and whatever is reported meanwhile; then the reconciler is quiet. */
module Convergence {
  import opened Conditions
  import opened Cluster
  import opened ReconcilerSpec
  import opened ReadySoundness
  import opened Creation
  import opened Provisioning
  import DeletionTermination
  import Runs

  const STEPS: nat := 9

  // A claim just made, with nothing of its own and nothing in the way.
  predicate Fresh(w: World, n: string) {
    && WellFormed(w) && n in w.claims
    && var c := w.claims[n];
    && c.conditions == [] && !c.finalizer && !c.deleting && Suitable(w, c.devices) && AllFree(w, c.devices)
    && OwnedDisks(w.disks, n) == [] && OwnedFilesystems(w.filesystems, n) == []
    && !HasFilesystem(w.filesystems, n) && n !in w.classes
  }

  lemma FreshIsEarly(w: World, n: string)
    requires Fresh(w, n)
    ensures Track(w, n, STEPS)
  {
  }

  // ---- leading on keeps the claim on its way ----

  lemma NotedFinds(w: World, n: string, x: Condition)
    requires n in w.claims
    ensures var cs := Noted(w, n, x).claims[n].conditions;
      forall k :: Find(cs, k) == if k == x.kind then Some(x) else Find(w.claims[n].conditions, k)
  {
    UpdatedFinds(w.claims[n].conditions, x);
  }

  lemma FirstPresentSame(w: World, t: World, n: string)
    requires FirstPresent(w, n) && t.disks == w.disks && t.nodes == w.nodes && t.discovery == w.discovery
    requires n in t.claims && t.claims[n].devices == w.claims[n].devices
    ensures FirstPresent(t, n)
  {
    var device := w.claims[n].devices[0];
    forall node | node in StorageNodes(t.nodes)
      ensures exists d :: d in OwnedDisks(t.disks, n) && DeviceWwn(t, node, device) == Some(d.name)
    {
      var d :| d in OwnedDisks(w.disks, n) && DeviceWwn(w, node, device) == Some(d.name);
      assert DeviceWwn(t, node, device) == Some(d.name);
    }
  }

  // A write that leaves the disks and their condition alone.
  lemma DisksUntouched(w: World, t: World, n: string)
    requires n in w.claims && DisksBuilt(w, n) && Steady(w, n)
    requires t.disks == w.disks && t.nodes == w.nodes && t.discovery == w.discovery
    requires n in t.claims && t.claims[n].devices == w.claims[n].devices
    requires Find(t.claims[n].conditions, LocalDiskCreated) == Find(w.claims[n].conditions, LocalDiskCreated)
    ensures DisksBuilt(t, n) && Steady(t, n)
  {
    if FirstPresent(w, n) {
      FirstPresentSame(w, t, n);
    }
  }

  lemma ReportKeepsDisks(w: World, n: string, x: Condition)
    requires n in w.claims && Report(w, n, x) && DisksBuilt(w, n) && Steady(w, n)
    ensures DisksBuilt(Noted(w, n, x), n) && Steady(Noted(w, n, x), n)
  {
    NotedFinds(w, n, x);
    if x.kind != LocalDiskCreated {
      DisksUntouched(w, Noted(w, n, x), n);
    } else if FirstPresent(w, n) {
      FirstPresentSame(w, Noted(w, n, x), n);
    }
  }

  lemma ReportKeepsRest(w: World, n: string, x: Condition)
    requires n in w.claims && Report(w, n, x) && FilesystemBuilt(w, n) && ClassBuilt(w, n)
    requires Regular(w.claims[n].conditions, Ready, ProvisioningSucceeded, AllProvisioned)
    ensures var t := Noted(w, n, x);
      FilesystemBuilt(t, n) && ClassBuilt(t, n) && Regular(t.claims[n].conditions, Ready, ProvisioningSucceeded, AllProvisioned)
  {
    NotedFinds(w, n, x);
  }

  lemma ReportKeepsBuilt(w: World, n: string, x: Condition)
    requires n in w.claims && Built(w, n) && Report(w, n, x)
    ensures Built(Noted(w, n, x), n)
  {
    NotedFinds(w, n, x);
    ReportKeepsDisks(w, n, x);
    ReportKeepsRest(w, n, x);
  }

  lemma NewFilesystemOwned(w: World, n: string, x: Condition)
    requires n in w.claims && OwnedFilesystems(w.filesystems, n) == []
    ensures OwnedFilesystems(WithFilesystem(Noted(w, n, x), n).filesystems, n) ==
      [NewFilesystem(n, BuildSpec(DiskNames(OwnedDisks(w.disks, n))))]
  {
    var f := NewFilesystem(n, BuildSpec(DiskNames(OwnedDisks(w.disks, n))));
    OwnedFilesystemsOfSum(w.filesystems, [f], n);
    assert OwnedFilesystems([f], n) == [f];
    assert WithFilesystem(Noted(w, n, x), n).filesystems == w.filesystems + [f];
  }

  lemma FilesystemKeepsBuilt(w: World, n: string, now: int)
    requires n in w.claims && Built(w, n) && OwnedFilesystems(w.filesystems, n) == []
    ensures var t := WithFilesystem(Noted(w, n, FilesystemMadeNews(now)), n);
      Built(t, n) && OwnedFilesystems(t.filesystems, n) != []
  {
    var t := WithFilesystem(Noted(w, n, FilesystemMadeNews(now)), n);
    NotedFinds(w, n, FilesystemMadeNews(now));
    NewFilesystemOwned(w, n, FilesystemMadeNews(now));
    DisksUntouched(w, t, n);
  }

  lemma ClassKeepsBuilt(w: World, n: string, now: int)
    requires n in w.claims && Built(w, n) && n !in w.classes
    ensures Built(WithClass(Noted(w, n, ClassMadeNews(now)), n), n)
  {
    NotedFinds(w, n, ClassMadeNews(now));
    DisksUntouched(w, WithClass(Noted(w, n, ClassMadeNews(now)), n), n);
  }

  lemma LeadsKeepsBuilt(w: World, n: string, t: World, x: Condition)
    requires n in w.claims && Built(w, n) && Leads(w, n, t, x)
    ensures n in t.claims && Built(t, n)
    ensures t.claims[n] == w.claims[n].(conditions := t.claims[n].conditions)
    ensures t.nodes == w.nodes && t.discovery == w.discovery && t.disks == w.disks
  {
    if t == w {
    } else if Report(w, n, x) && t == Noted(w, n, x) {
      ReportKeepsBuilt(w, n, x);
    } else if n !in w.classes && t == WithClass(Noted(w, n, x), n) && x == ClassMadeNews(x.since) {
      ClassKeepsBuilt(w, n, x.since);
    } else {
      FilesystemKeepsBuilt(w, n, x.since);
    }
  }

  // ---- in a healthy world exactly one write is done ----

  // The reconcile stops and leaves this world.
  predicate Stops(s: State, n: string, w: World) {
    Reconcile(s, n).out == Requeue && Reconcile(s, n).s.world == w
  }

  lemma DisksWritten(s: State, c: Claim)
    requires Taken(s, c) && AllHealthy(s.world, c.name) && !DisksReported(c.conditions, |OwnedDisks(s.world.disks, c.name)|)
    ensures Stops(s, c.name, Noted(s.world, c.name, DisksNews(|OwnedDisks(s.world.disks, c.name)|, s.now)))
  {
    Live(s, c);
    DisksStand(s, c);
    SyncIsVerdict(s, c);
    HealthyVerdict(s.world, c.name, s.now);
    RegularSettled(c, LocalDiskCreated, LocalDiskCreationSucceeded, AllDisksReady(|OwnedDisks(s.world.disks, c.name)|));
    Updates(s, c, DisksNews(|OwnedDisks(s.world.disks, c.name)|, s.now));
  }

  lemma DisksQuiet(s: State, c: Claim)
    requires Taken(s, c) && AllHealthy(s.world, c.name) && DisksReported(c.conditions, |OwnedDisks(s.world.disks, c.name)|)
    ensures IsTrue(c.conditions, LocalDiskCreated)
    ensures EnsureLocalDisks(s, c) == Step(s, Continue) && SyncLocalDisks(s, c) == Step(s, Continue)
  {
    TrueIsFirst(c.conditions, LocalDiskCreated);
    DisksStand(s, c);
    SyncIsVerdict(s, c);
    HealthyVerdict(s.world, c.name, s.now);
  }

  lemma GoesOn(s: State, c: Claim)
    requires s.faults == [] && c.name in s.world.claims && s.world.claims[c.name] == c && !c.deleting && c.finalizer
    requires EnsureLocalDisks(s, c) == Step(s, Continue) && SyncLocalDisks(s, c) == Step(s, Continue)
    ensures PrepareClass(s, c).out == Requeue ==> Stops(s, c.name, PrepareClass(s, c).s.world)
    ensures PrepareClass(s, c) == Step(s, Continue) ==> Reconcile(s, c.name) == SyncReady(s, c)
  {
    Live(s, c);
  }

  // The disks are reported: the reconcile goes on to the filesystem.
  lemma DisksPass(s: State, c: Claim)
    requires Taken(s, c) && AllHealthy(s.world, c.name) && DisksReported(c.conditions, |OwnedDisks(s.world.disks, c.name)|)
    ensures IsTrue(c.conditions, LocalDiskCreated)
    ensures PrepareClass(s, c).out == Requeue ==> Stops(s, c.name, PrepareClass(s, c).s.world)
    ensures PrepareClass(s, c) == Step(s, Continue) ==> Reconcile(s, c.name) == SyncReady(s, c)
  {
    DisksQuiet(s, c);
    GoesOn(s, c);
  }

  lemma FilesystemWritten(s: State, c: Claim)
    requires Taken(s, c) && IsTrue(c.conditions, LocalDiskCreated) && OwnedFilesystems(s.world.filesystems, c.name) == []
    ensures PrepareClass(s, c).out == Requeue
    ensures PrepareClass(s, c).s.world == WithFilesystem(Noted(s.world, c.name, FilesystemMadeNews(s.now)), c.name)
  {
    FilesystemMade(s, c);
  }

  lemma FilesystemWanted(s: State, c: Claim)
    requires Taken(s, c) && AllHealthy(s.world, c.name) && IsTrue(c.conditions, LocalDiskCreated)
    requires OwnedFilesystems(s.world.filesystems, c.name) != []
    ensures EnsureFilesystem(s, c) == Step(s, Continue)
    ensures SyncFilesystem(s, c) == UpdateIfChanged(s, c, FileSystemCreated, True, FileSystemCreationSucceeded, FilesystemHealthy)
  {
    FilesystemStands(s, c);
    FilesystemSyncs(s, c);
    HealthyFilesystem(s.world, c.name, s.now);
  }

  lemma FilesystemPasses(s: State, c: Claim)
    requires Taken(s, c) && AllHealthy(s.world, c.name) && IsTrue(c.conditions, LocalDiskCreated)
    requires OwnedFilesystems(s.world.filesystems, c.name) != [] && FilesystemReported(c.conditions)
    ensures IsTrue(c.conditions, FileSystemCreated) && PrepareClass(s, c) == EnsureClass(s, c)
  {
    FilesystemWanted(s, c);
    TrueIsFirst(c.conditions, FileSystemCreated);
  }

  lemma FilesystemNoted(s: State, c: Claim)
    requires Taken(s, c) && AllHealthy(s.world, c.name) && IsTrue(c.conditions, LocalDiskCreated)
    requires OwnedFilesystems(s.world.filesystems, c.name) != [] && !FilesystemReported(c.conditions)
    ensures PrepareClass(s, c).out == Requeue && PrepareClass(s, c).s.world == Noted(s.world, c.name, FilesystemNews(s.now))
  {
    FilesystemWanted(s, c);
    RegularSettled(c, FileSystemCreated, FileSystemCreationSucceeded, FilesystemHealthy);
    Updates(s, c, FilesystemNews(s.now));
  }

  lemma ClassPasses(s: State, c: Claim)
    requires Taken(s, c) && IsTrue(c.conditions, FileSystemCreated) && c.name in s.world.classes
    ensures ClassReported(c.conditions) ==> EnsureClass(s, c) == Step(s, Continue)
    ensures !ClassReported(c.conditions) ==>
      EnsureClass(s, c).out == Requeue && EnsureClass(s, c).s.world == Noted(s.world, c.name, ClassNews(s.now))
  {
    ClassStands(s, c);
    if !ClassReported(c.conditions) {
      Updates(s, c, ClassNews(s.now));
    }
  }

  lemma ReadyPasses(s: State, c: Claim)
    requires Taken(s, c) && AllTrue(c.conditions)
    ensures ReadyReported(c.conditions) ==> SyncReady(s, c) == Step(s, Continue)
    ensures !ReadyReported(c.conditions) ==>
      SyncReady(s, c).out == Requeue && SyncReady(s, c).s.world == Noted(s.world, c.name, ReadyNews(s.now))
  {
    RegularSettled(c, Ready, ProvisioningSucceeded, AllProvisioned);
    if !ReadyReported(c.conditions) {
      Updates(s, c, ReadyNews(s.now));
    }
  }

  lemma AllFour(c: Claim)
    requires Unique(c.conditions) && Has(c.conditions, DeviceValidated, True, DeviceValidationSucceeded, DevicesValid)
    requires IsTrue(c.conditions, LocalDiskCreated) && IsTrue(c.conditions, FileSystemCreated) && ClassReported(c.conditions)
    ensures AllTrue(c.conditions)
  {
    TrueIsFirst(c.conditions, DeviceValidated);
    TrueIsFirst(c.conditions, StorageClassCreated);
  }

  // The reconcile makes one of the writes that keep the claim on its way, and it is one nearer.
  predicate Advances(s: State, n: string, t: World, x: Condition)
    requires n in s.world.claims
  {
    Stops(s, n, t) && Leads(s.world, n, t, x) && n in t.claims && Left(t, n) == Left(s.world, n) - 1
  }

  lemma LeftAfterNews(w: World, n: string, x: Condition)
    requires n in w.claims
    ensures var t, cs := Noted(w, n, x), w.claims[n].conditions; var cs', count := t.claims[n].conditions, |OwnedDisks(w.disks, n)|;
      && (x.kind != LocalDiskCreated ==> (DisksReported(cs', count) <==> DisksReported(cs, count)))
      && (x.kind != FileSystemCreated ==> (FilesystemReported(cs') <==> FilesystemReported(cs)))
      && (x.kind != StorageClassCreated ==> (ClassReported(cs') <==> ClassReported(cs)))
      && (x.kind != Ready ==> (ReadyReported(cs') <==> ReadyReported(cs)))
      && Find(cs', x.kind) == Some(x)
  {
    NotedFinds(w, n, x);
  }

  lemma ReportFalls(w: World, n: string, x: Condition)
    requires n in w.claims && x.status == True
    requires match x.kind
             case LocalDiskCreated => x == DisksNews(|OwnedDisks(w.disks, n)|, x.since)
                                      && !DisksReported(w.claims[n].conditions, |OwnedDisks(w.disks, n)|)
             case FileSystemCreated => x == FilesystemNews(x.since) && !FilesystemReported(w.claims[n].conditions)
             case StorageClassCreated => x == ClassNews(x.since) && !ClassReported(w.claims[n].conditions)
             case Ready => x == ReadyNews(x.since) && !ReadyReported(w.claims[n].conditions)
             case _ => false
    ensures n in Noted(w, n, x).claims && Left(Noted(w, n, x), n) == Left(w, n) - 1
  {
    LeftAfterNews(w, n, x);
  }

  lemma FilesystemFalls(w: World, n: string, now: int)
    requires n in w.claims && Built(w, n) && OwnedFilesystems(w.filesystems, n) == []
    ensures var t := WithFilesystem(Noted(w, n, FilesystemMadeNews(now)), n); n in t.claims && Left(t, n) == Left(w, n) - 1
  {
    LeftAfterNews(w, n, FilesystemMadeNews(now));
    FilesystemKeepsBuilt(w, n, now);
  }

  lemma ClassFalls(w: World, n: string, now: int)
    requires n in w.claims && Built(w, n) && n !in w.classes
    ensures var t := WithClass(Noted(w, n, ClassMadeNews(now)), n); n in t.claims && Left(t, n) == Left(w, n) - 1
  {
    LeftAfterNews(w, n, ClassMadeNews(now));
  }

  lemma DisksAdvance(s: State, c: Claim)
    requires Taken(s, c) && AllHealthy(s.world, c.name) && !DisksReported(c.conditions, |OwnedDisks(s.world.disks, c.name)|)
    ensures var x := DisksNews(|OwnedDisks(s.world.disks, c.name)|, s.now); Advances(s, c.name, Noted(s.world, c.name, x), x)
  {
    DisksWritten(s, c);
    ReportFalls(s.world, c.name, DisksNews(|OwnedDisks(s.world.disks, c.name)|, s.now));
  }

  lemma FilesystemAdvances(s: State, c: Claim) returns (t: World, x: Condition)
    requires Taken(s, c) && AllHealthy(s.world, c.name) && DisksReported(c.conditions, |OwnedDisks(s.world.disks, c.name)|)
    requires OwnedFilesystems(s.world.filesystems, c.name) == [] || !FilesystemReported(c.conditions)
    ensures Advances(s, c.name, t, x)
  {
    DisksPass(s, c);
    if OwnedFilesystems(s.world.filesystems, c.name) == [] {
      x := FilesystemMadeNews(s.now);
      t := WithFilesystem(Noted(s.world, c.name, x), c.name);
      FilesystemWritten(s, c);
      FilesystemFalls(s.world, c.name, s.now);
    } else {
      x := FilesystemNews(s.now);
      t := Noted(s.world, c.name, x);
      FilesystemNoted(s, c);
      ReportFalls(s.world, c.name, x);
    }
  }

  // Disks and filesystem are reported: the reconcile goes on to the class.
  lemma FilesystemDone(s: State, c: Claim)
    requires Taken(s, c) && AllHealthy(s.world, c.name) && DisksReported(c.conditions, |OwnedDisks(s.world.disks, c.name)|)
    requires OwnedFilesystems(s.world.filesystems, c.name) != [] && FilesystemReported(c.conditions)
    ensures IsTrue(c.conditions, LocalDiskCreated) && IsTrue(c.conditions, FileSystemCreated)
    ensures EnsureClass(s, c).out == Requeue ==> Stops(s, c.name, EnsureClass(s, c).s.world)
    ensures EnsureClass(s, c) == Step(s, Continue) ==> Reconcile(s, c.name) == SyncReady(s, c)
  {
    DisksPass(s, c);
    FilesystemPasses(s, c);
  }

  lemma ClassAdvances(s: State, c: Claim) returns (t: World, x: Condition)
    requires Taken(s, c) && IsTrue(c.conditions, FileSystemCreated)
    requires OwnedFilesystems(s.world.filesystems, c.name) != []
    requires EnsureClass(s, c).out == Requeue ==> Stops(s, c.name, EnsureClass(s, c).s.world)
    requires c.name !in s.world.classes || !ClassReported(c.conditions)
    ensures Advances(s, c.name, t, x)
  {
    if c.name !in s.world.classes {
      x := ClassMadeNews(s.now);
      t := WithClass(Noted(s.world, c.name, x), c.name);
      ClassMade(s, c);
      ClassFalls(s.world, c.name, s.now);
    } else {
      x := ClassNews(s.now);
      t := Noted(s.world, c.name, x);
      ClassPasses(s, c);
      ReportFalls(s.world, c.name, x);
    }
  }

  lemma ReadyWritten(s: State, c: Claim)
    requires Taken(s, c) && AllTrue(c.conditions) && Reconcile(s, c.name) == SyncReady(s, c)
    requires !ReadyReported(c.conditions)
    ensures Stops(s, c.name, Noted(s.world, c.name, ReadyNews(s.now)))
  {
    ReadyPasses(s, c);
  }

  lemma ReadyAdvances(s: State, c: Claim)
    requires Taken(s, c) && AllTrue(c.conditions) && Reconcile(s, c.name) == SyncReady(s, c)
    requires !ReadyReported(c.conditions)
    ensures Advances(s, c.name, Noted(s.world, c.name, ReadyNews(s.now)), ReadyNews(s.now))
  {
    ReadyWritten(s, c);
    ReportFalls(s.world, c.name, ReadyNews(s.now));
  }

  lemma HealthyStep(s: State, c: Claim) returns (t: World, x: Condition)
    requires Taken(s, c) && AllHealthy(s.world, c.name)
    ensures Left(s.world, c.name) == 0 ==> Reconcile(s, c.name) == Step(s, Continue)
    ensures Left(s.world, c.name) > 0 ==> Advances(s, c.name, t, x)
  {
    t, x := s.world, ReadyNews(s.now);
    if !DisksReported(c.conditions, |OwnedDisks(s.world.disks, c.name)|) {
      x := DisksNews(|OwnedDisks(s.world.disks, c.name)|, s.now);
      t := Noted(s.world, c.name, x);
      DisksAdvance(s, c);
    } else if OwnedFilesystems(s.world.filesystems, c.name) == [] || !FilesystemReported(c.conditions) {
      t, x := FilesystemAdvances(s, c);
    } else {
      FilesystemDone(s, c);
      if c.name !in s.world.classes || !ClassReported(c.conditions) {
        t, x := ClassAdvances(s, c);
      } else {
        ClassPasses(s, c);
        AllFour(c);
        if ReadyReported(c.conditions) {
          ReadyPasses(s, c);
        } else {
          t := Noted(s.world, c.name, x);
          ReadyAdvances(s, c);
        }
      }
    }
  }

  // ---- before the disks are there ----

  predicate TakenEarly(s: State, c: Claim, k: nat) {
    && s.faults == [] && c.name in s.world.claims && s.world.claims[c.name] == c
    && Base(s.world, c.name) && Early(s.world, c.name, k)
  }

  lemma {:induction false} ResultsFetched(s: State, nodes: seq<string>)
    requires s.faults == [] && forall n :: n in nodes ==> n in s.world.discovery
    ensures FetchResults(s, nodes) == Call(s, true)
    decreases |nodes|
  {
    if nodes != [] {
      ResultsFetched(s, nodes[1..]);
    }
  }

  lemma EarlyTruth(s: State, c: Claim, k: nat)
    requires TakenEarly(s, c, k)
    ensures IsTrue(c.conditions, DeviceValidated) <==> k == 7
    ensures !IsTrue(c.conditions, LocalDiskCreated)
  {
    TrueIsFirst(c.conditions, DeviceValidated);
    TrueIsFirst(c.conditions, LocalDiskCreated);
  }

  lemma FinalizerStep(s: State, c: Claim)
    requires TakenEarly(s, c, 9)
    ensures Stops(s, c.name, s.world.(claims := s.world.claims[c.name := c.(finalizer := true)]))
  {
  }

  lemma ValidationStep(s: State, c: Claim)
    requires TakenEarly(s, c, 8)
    ensures Stops(s, c.name,
      Noted(s.world, c.name, Condition(DeviceValidated, True, DeviceValidationSucceeded, DevicesValid, s.now)))
  {
    Live(s, c);
    EarlyTruth(s, c, 8);
    ResultsFetched(s, StorageNodes(s.world.nodes));
    Updates(s, c, Condition(DeviceValidated, True, DeviceValidationSucceeded, DevicesValid, s.now));
  }

  lemma CreationReached(s: State, c: Claim)
    requires TakenEarly(s, c, 7)
    ensures CreateStage(s, c).out == Requeue ==> Stops(s, c.name, CreateStage(s, c).s.world)
  {
    Live(s, c);
    EarlyTruth(s, c, 7);
  }

  lemma CreationStep(s: State, c: Claim) returns (made: seq<LocalDisk>)
    requires TakenEarly(s, c, 7)
    ensures Stops(s, c.name, Grown(s.world, c, made, s.now)) && made != []
    ensures OwnedDisks(s.world.disks + made, c.name) == made && DeviceSet(made) == ToSet(c.devices)
    ensures var node := Picked(StorageNodes(s.world.nodes), s.pick);
      node in StorageNodes(s.world.nodes) && Named(s.world, c.devices, node) && made == MadeDisks(s.world, c, node)
  {
    made := PassIsBijective(s, c);
    CreationReached(s, c);
  }

  lemma FinalizerTracks(w: World, n: string)
    requires n in w.claims && Early(w, n, 9)
    ensures Early(w.(claims := w.claims[n := w.claims[n].(finalizer := true)]), n, 8)
  {
  }

  lemma ValidationTracks(w: World, n: string, now: int)
    requires n in w.claims && Early(w, n, 8)
    ensures Early(Noted(w, n, Condition(DeviceValidated, True, DeviceValidationSucceeded, DevicesValid, now)), n, 7)
  {
    NotedFinds(w, n, Condition(DeviceValidated, True, DeviceValidationSucceeded, DevicesValid, now));
  }

  lemma CreationTracks(w: World, n: string, made: seq<LocalDisk>, now: int)
    requires n in w.claims && Early(w, n, 7) && made != [] && OwnedDisks(w.disks + made, n) == made
    requires DeviceSet(made) == ToSet(w.claims[n].devices) && w.claims[n].name == n
    ensures var t := Grown(w, w.claims[n], made, now); n in t.claims && Built(t, n) && Left(t, n) == 6
  {
    UpdatedFinds(w.claims[n].conditions, InProgress(now));
  }

  // ---- storage nodes that agree ----

  // The storage nodes agree on the WWN of the first device.
  predicate Agreeing(w: World, devices: seq<string>) {
    devices != [] &&
    forall a, b :: a in StorageNodes(w.nodes) && b in StorageNodes(w.nodes) ==>
      DeviceWwn(w, a, devices[0]) == DeviceWwn(w, b, devices[0])
  }

  // Should the creation of disks be entered again, it finds the first one.
  predicate Anchored(w: World, n: string)
    requires n in w.claims
  {
    if OwnedDisks(w.disks, n) == [] then Agreeing(w, w.claims[n].devices) else FirstPresent(w, n)
  }

  lemma CreationAnchors(w: World, n: string, made: seq<LocalDisk>, node: string, now: int)
    requires n in w.claims && w.claims[n].name == n && Agreeing(w, w.claims[n].devices)
    requires node in StorageNodes(w.nodes) && Named(w, w.claims[n].devices, node)
    requires made == MadeDisks(w, w.claims[n], node) && OwnedDisks(w.disks + made, n) == made
    ensures FirstPresent(Grown(w, w.claims[n], made, now), n)
  {
    var t, devices := Grown(w, w.claims[n], made, now), w.claims[n].devices;
    assert devices[0] in devices && made[0] in made && t.disks == w.disks + made;
    forall other | other in StorageNodes(t.nodes)
      ensures exists d :: d in OwnedDisks(t.disks, n) && DeviceWwn(t, other, devices[0]) == Some(d.name)
    {
      assert DeviceWwn(t, other, devices[0]) == DeviceWwn(w, node, devices[0]) == Some(made[0].name);
    }
  }

  // ---- one reconcile ----

  function Undisturbed(w: World, pick: nat, now: int): State {
    DeletionTermination.Undisturbed(w, pick, now)
  }

  function After(w: World, n: string, pick: nat, now: int): World {
    Reconcile(Undisturbed(w, pick, now), n).s.world
  }

  lemma {:induction false} OwnedFilesystemsOfSum(a: seq<Filesystem>, b: seq<Filesystem>, n: string)
    ensures OwnedFilesystems(a + b, n) == OwnedFilesystems(a, n) + OwnedFilesystems(b, n)
  {
    if a == [] {
      assert a + b == b;
    } else {
      OwnedFilesystemsOfSum(a[1..], b, n);
      assert (a + b)[1..] == a[1..] + b;
    }
  }

  lemma SuitableLasts(w: World, w': World, devices: seq<string>)
    requires Suitable(w, devices) && w'.nodes == w.nodes && w'.discovery == w.discovery
    ensures Suitable(w', devices)
  {
    forall node | node in StorageNodes(w'.nodes) ensures Named(w', devices, node) {
      assert Named(w, devices, node);
    }
    assert AllDiscovered(w', devices) by {
      forall d, node | d in devices && node in StorageNodes(w'.nodes) ensures Discovered(w', node, d) {
        assert Discovered(w, node, d);
      }
    }
  }

  lemma BaseLasts(w: World, t: World, n: string)
    requires Base(w, n) && WellFormed(t) && n in t.claims && t.nodes == w.nodes && t.discovery == w.discovery
    requires t.claims[n].devices == w.claims[n].devices && !t.claims[n].deleting
    ensures Base(t, n)
  {
    SuitableLasts(w, t, w.claims[n].devices);
  }

  lemma FormLasts(w: World, n: string, pick: nat, now: int)
    requires WellFormed(w)
    ensures WellFormed(After(w, n, pick, now))
  {
    Runs.StepKeepsForm(w, Runs.Reconciling(n, [], pick, now));
  }

  // Before the disks are there every reconcile is a step on the way, whatever is healthy.
  lemma EarlyAdvances(w: World, n: string, k: nat, pick: nat, now: int)
    requires Track(w, n, k) && k > 6
    ensures var t := After(w, n, pick, now);
      Track(t, n, k - 1) && t.nodes == w.nodes && t.discovery == w.discovery && t != w && (Anchored(w, n) ==> Anchored(t, n))
  {
    var s, c := Undisturbed(w, pick, now), w.claims[n];
    FormLasts(w, n, pick, now);
    if k == 9 {
      FinalizerStep(s, c);
      FinalizerTracks(w, n);
    } else if k == 8 {
      ValidationStep(s, c);
      ValidationTracks(w, n, now);
      NotedFinds(w, n, Condition(DeviceValidated, True, DeviceValidationSucceeded, DevicesValid, now));
    } else {
      var made := CreationStep(s, c);
      CreationTracks(w, n, made, now);
      if Anchored(w, n) {
        CreationAnchors(w, n, made, Picked(StorageNodes(w.nodes), pick), now);
      }
      assert |w.disks + made| > |w.disks|;
    }
    BaseLasts(w, After(w, n, pick, now), n);
  }

  // Afterwards every reconcile leads on, to some number of writes left.
  lemma BuiltStays(w: World, n: string, k: nat, pick: nat, now: int)
    requires Track(w, n, k) && k <= 6 && FirstPresent(w, n)
    ensures var t := After(w, n, pick, now);
      && n in t.claims && Built(t, n) && Base(t, n)
      && t.nodes == w.nodes && t.discovery == w.discovery && FirstPresent(t, n)
  {
    var s, c, t := Undisturbed(w, pick, now), w.claims[n], After(w, n, pick, now);
    FormLasts(w, n, pick, now);
    var x := BuiltLeads(s, c);
    LeadsKeepsBuilt(w, n, t, x);
    BaseLasts(w, t, n);
  }

  // In a healthy world every reconcile brings the claim one write nearer.
  lemma HealthyAdvances(w: World, n: string, k: nat, pick: nat, now: int)
    requires Track(w, n, k) && k <= 6 && AllHealthy(w, n)
    ensures k == 0 ==> Reconcile(Undisturbed(w, pick, now), n) == Step(Undisturbed(w, pick, now), Continue)
    ensures k > 0 ==>
      var t := After(w, n, pick, now);
      Track(t, n, k - 1) && t.nodes == w.nodes && t.discovery == w.discovery && t != w && t.disks == w.disks
  {
    var t, x := HealthyStep(Undisturbed(w, pick, now), w.claims[n]);
    if k > 0 {
      FormLasts(w, n, pick, now);
      LeadsKeepsBuilt(w, n, t, x);
      BaseLasts(w, t, n);
    }
  }

  // ---- between two reconciles ----

  predicate SameDiskList(a: seq<LocalDisk>, b: seq<LocalDisk>) {
    |a| == |b| && forall i :: 0 <= i < |a| ==> a[i].name == b[i].name && a[i].device == b[i].device
  }

  predicate SameFilesystemList(a: seq<Filesystem>, b: seq<Filesystem>) {
    |a| == |b| && forall i :: 0 <= i < |a| ==> a[i].spec == b[i].spec
  }

  // Until the next reconcile the claim and its objects stay as written, up to their health, nobody
  // takes the names it is going to use, and nodes and discovery results stay.
  predicate Waiting(t: World, w': World, n: string) {
    && WellFormed(w') && w'.nodes == t.nodes && w'.discovery == t.discovery
    && n in t.claims && n in w'.claims && w'.claims[n] == t.claims[n]
    && SameDiskList(OwnedDisks(t.disks, n), OwnedDisks(w'.disks, n))
    && (AllFree(t, t.claims[n].devices) ==> AllFree(w', t.claims[n].devices))
    && SameFilesystemList(OwnedFilesystems(t.filesystems, n), OwnedFilesystems(w'.filesystems, n))
    && (!HasFilesystem(t.filesystems, n) ==> !HasFilesystem(w'.filesystems, n))
    && (if n in t.classes then n in w'.classes && w'.classes[n] == t.classes[n] else n !in w'.classes)
  }

  lemma SameDevices(a: seq<LocalDisk>, b: seq<LocalDisk>)
    requires SameDiskList(a, b)
    ensures DeviceSet(a) == DeviceSet(b) && DiskNames(a) == DiskNames(b)
  {
    forall x | x in DeviceSet(a) ensures x in DeviceSet(b) {
      var i :| 0 <= i < |a| && a[i].device == x;
      assert b[i] in b;
    }
    forall x | x in DeviceSet(b) ensures x in DeviceSet(a) {
      var i :| 0 <= i < |b| && b[i].device == x;
      assert a[i] in a;
    }
  }

  lemma FirstPresentLasts(t: World, w': World, n: string)
    requires Waiting(t, w', n) && FirstPresent(t, n)
    ensures FirstPresent(w', n)
  {
    var a, b, device := OwnedDisks(t.disks, n), OwnedDisks(w'.disks, n), t.claims[n].devices[0];
    forall node | node in StorageNodes(w'.nodes)
      ensures exists d :: d in b && DeviceWwn(w', node, device) == Some(d.name)
    {
      var d :| d in a && DeviceWwn(t, node, device) == Some(d.name);
      var i :| 0 <= i < |a| && a[i] == d;
      assert b[i] in b && b[i].name == d.name;
      assert DeviceWwn(w', node, device) == DeviceWwn(t, node, device);
    }
  }

  lemma AnchorLasts(t: World, w': World, n: string)
    requires Waiting(t, w', n) && Anchored(t, n)
    ensures Anchored(w', n)
  {
    if OwnedDisks(t.disks, n) == [] {
      forall a, b | a in StorageNodes(w'.nodes) && b in StorageNodes(w'.nodes)
        ensures DeviceWwn(w', a, t.claims[n].devices[0]) == DeviceWwn(w', b, t.claims[n].devices[0])
      {
        assert DeviceWwn(t, a, t.claims[n].devices[0]) == DeviceWwn(t, b, t.claims[n].devices[0]);
      }
    } else {
      FirstPresentLasts(t, w', n);
    }
  }

  lemma DisksBuiltLasts(t: World, w': World, n: string)
    requires Waiting(t, w', n) && DisksBuilt(t, n) && Steady(t, n)
    ensures DisksBuilt(w', n) && Steady(w', n)
  {
    SameDevices(OwnedDisks(t.disks, n), OwnedDisks(w'.disks, n));
    if FirstPresent(t, n) {
      FirstPresentLasts(t, w', n);
    }
  }

  lemma RestLasts(t: World, w': World, n: string)
    requires Waiting(t, w', n) && FilesystemBuilt(t, n) && ClassBuilt(t, n)
    ensures FilesystemBuilt(w', n) && ClassBuilt(w', n) && Left(w', n) == Left(t, n)
  {
    SameDevices(OwnedDisks(t.disks, n), OwnedDisks(w'.disks, n));
  }

  lemma BuiltLasts(t: World, w': World, n: string)
    requires Waiting(t, w', n) && Built(t, n)
    ensures Built(w', n) && Left(w', n) == Left(t, n)
  {
    DisksBuiltLasts(t, w', n);
    RestLasts(t, w', n);
  }

  lemma TrackLasts(t: World, w': World, n: string, k: nat)
    requires Track(t, n, k) && Waiting(t, w', n)
    ensures Track(w', n, k)
  {
    BaseLasts(t, w', n);
    if k <= 6 {
      BuiltLasts(t, w', n);
    }
  }

  // ---- rounds ----

  /** One undisturbed reconcile, with its random pick and its time, and the world of the next. */
  datatype Turn = Turn(pick: nat, now: int, next: World)

  predicate Rounds(w: World, turns: seq<Turn>, n: string)
    decreases |turns|
  {
    turns == [] ||
    (Waiting(After(w, n, turns[0].pick, turns[0].now), turns[0].next, n) && Rounds(turns[0].next, turns[1..], n))
  }

  function End(w: World, turns: seq<Turn>): World
    decreases |turns|
  {
    if turns == [] then w else End(turns[0].next, turns[1..])
  }

  // All resources are healthy in every world, from this one on.
  predicate HealthyRounds(w: World, turns: seq<Turn>, n: string)
    decreases |turns|
  {
    AllHealthy(w, n) && (turns == [] || HealthyRounds(turns[0].next, turns[1..], n))
  }

  function Minus(k: nat, i: nat): nat {
    if k <= i then 0 else k - i
  }

  // A round that starts healthy takes the claim one write nearer.
  lemma RoundAdvances(w: World, turn: Turn, n: string, k: nat)
    requires Track(w, n, k) && AllHealthy(w, n) && Waiting(After(w, n, turn.pick, turn.now), turn.next, n)
    ensures Track(turn.next, n, Minus(k, 1))
  {
    if k > 6 {
      EarlyAdvances(w, n, k, turn.pick, turn.now);
    } else {
      HealthyAdvances(w, n, k, turn.pick, turn.now);
    }
    TrackLasts(After(w, n, turn.pick, turn.now), turn.next, n, Minus(k, 1));
  }

  lemma RoundEnds(t: World, turn: Turn, n: string, k: nat)
    requires Track(t, n, k) && Anchored(t, n) && Waiting(t, turn.next, n)
    ensures Track(turn.next, n, k) && Anchored(turn.next, n)
  {
    TrackLasts(t, turn.next, n, k);
    AnchorLasts(t, turn.next, n);
  }

  // Any reconcile keeps it on its way, if the storage nodes agree.
  lemma AnyAdvances(w: World, n: string, k: nat, pick: nat, now: int) returns (k': nat)
    requires Track(w, n, k) && k <= STEPS && Anchored(w, n)
    ensures var t := After(w, n, pick, now); Track(t, n, k') && k' <= STEPS && Anchored(t, n)
  {
    if k > 6 {
      k' := k - 1;
      EarlyAdvances(w, n, k, pick, now);
    } else {
      AnchorIsFirst(w, n);
      BuiltStays(w, n, k, pick, now);
      AnchorIsFirst(After(w, n, pick, now), n);
      k' := Left(After(w, n, pick, now), n);
    }
  }

  // Once disks are there, being anchored is about the first of them.
  lemma AnchorIsFirst(w: World, n: string)
    requires n in w.claims && Built(w, n)
    ensures Anchored(w, n) <==> FirstPresent(w, n)
    ensures Left(w, n) <= 6
  {
  }

  // ... and so does any round.
  lemma RoundKeepsTrack(w: World, turn: Turn, n: string, k: nat) returns (k': nat)
    requires Track(w, n, k) && k <= STEPS && Anchored(w, n)
    requires Waiting(After(w, n, turn.pick, turn.now), turn.next, n)
    ensures Track(turn.next, n, k') && k' <= STEPS && Anchored(turn.next, n)
  {
    k' := AnyAdvances(w, n, k, turn.pick, turn.now);
    RoundEnds(After(w, n, turn.pick, turn.now), turn, n, k');
  }

  // However the health of its resources comes and goes, the claim stays on its way.
  lemma {:induction false} StaysOnTrack(w: World, turns: seq<Turn>, n: string, k: nat) returns (k': nat)
    requires Track(w, n, k) && k <= STEPS && Anchored(w, n) && Rounds(w, turns, n)
    ensures Track(End(w, turns), n, k') && k' <= STEPS && Anchored(End(w, turns), n)
    decreases |turns|
  {
    k' := k;
    if turns != [] {
      var k1 := RoundKeepsTrack(w, turns[0], n, k);
      k' := StaysOnTrack(turns[0].next, turns[1..], n, k1);
    }
  }

  // While they are healthy, every round takes it one write nearer.
  lemma {:induction false} ComesNearer(w: World, turns: seq<Turn>, n: string, k: nat)
    requires Track(w, n, k) && Rounds(w, turns, n) && HealthyRounds(w, turns, n)
    ensures Track(End(w, turns), n, Minus(k, |turns|)) && AllHealthy(End(w, turns), n)
    decreases |turns|
  {
    if turns != [] {
      RoundAdvances(w, turns[0], n, k);
      ComesNearer(turns[0].next, turns[1..], n, Minus(k, 1));
    }
  }

  // ---- convergence ----

  lemma TrackWrites(w: World, n: string, k: nat, pick: nat, now: int)
    requires Track(w, n, k) && k > 0 && AllHealthy(w, n)
    ensures After(w, n, pick, now) != w
  {
    if k > 6 {
      EarlyAdvances(w, n, k, pick, now);
    } else {
      HealthyAdvances(w, n, k, pick, now);
    }
  }

  // The first nine reconciles of a fresh claim with healthy resources all write.
  lemma NineWritingReconciles(w: World, turns: seq<Turn>, n: string, pick: nat, now: int)
    requires Fresh(w, n) && Rounds(w, turns, n) && HealthyRounds(w, turns, n) && |turns| < 9
    ensures After(End(w, turns), n, pick, now) != End(w, turns)
  {
    FreshIsEarly(w, n);
    ComesNearer(w, turns, n, STEPS);
    TrackWrites(End(w, turns), n, STEPS - |turns|, pick, now);
  }

  lemma AtZeroIsProvisioned(w: World, n: string)
    requires Track(w, n, 0) && AllHealthy(w, n)
    ensures IsTrue(w.claims[n].conditions, Ready) && Provisioned(w, n)
  {
    TrueIsFirst(w.claims[n].conditions, Ready);
    assert forall d :: d in OwnedDisks(w.disks, n) ==> DiskUsable(d, {n}) && DiskUsable(d, OwnNames(w, n));
    var owned := OwnedFilesystems(w.filesystems, n);
    assert owned[0] in owned;
  }

  // The claim reports Ready, everything it stands for is in place, and no reconcile writes or
  // reads anything more.
  predicate Converged(w: World, n: string, pick: nat, now: int) {
    && n in w.claims && IsTrue(w.claims[n].conditions, Ready) && Provisioned(w, n)
    && Reconcile(Undisturbed(w, pick, now), n) == Step(Undisturbed(w, pick, now), Continue)
  }

  lemma TrackConverges(w: World, turns: seq<Turn>, n: string, k: nat, pick: nat, now: int)
    requires Track(w, n, k) && k <= STEPS && Rounds(w, turns, n) && HealthyRounds(w, turns, n) && |turns| >= STEPS
    ensures Converged(End(w, turns), n, pick, now)
  {
    ComesNearer(w, turns, n, k);
    AtZeroIsProvisioned(End(w, turns), n);
    HealthyAdvances(End(w, turns), n, 0, pick, now);
  }

  // After nine rounds of a fresh claim with healthy resources it has converged for good.
  lemma ReadyAfterNine(w: World, turns: seq<Turn>, n: string, pick: nat, now: int)
    requires Fresh(w, n) && Rounds(w, turns, n) && HealthyRounds(w, turns, n) && |turns| >= 9
    ensures Converged(End(w, turns), n, pick, now)
  {
    FreshIsEarly(w, n);
    TrackConverges(w, turns, n, STEPS, pick, now);
  }

  lemma FreshIsAnchored(w: World, n: string)
    requires Fresh(w, n) && Agreeing(w, w.claims[n].devices)
    ensures Anchored(w, n)
  {
  }

  // If the storage nodes agree, the resources may take any number of rounds to come up, and their
  // health may come and go meanwhile: nine rounds after it has come for good, the claim has
  // converged.
  lemma ReadyOnceHealthy(w: World, waiting: seq<Turn>, turns: seq<Turn>, n: string, pick: nat, now: int)
    requires Fresh(w, n) && Agreeing(w, w.claims[n].devices) && Rounds(w, waiting, n)
    requires Rounds(End(w, waiting), turns, n) && HealthyRounds(End(w, waiting), turns, n) && |turns| >= 9
    ensures Converged(End(End(w, waiting), turns), n, pick, now)
  {
    FreshIsEarly(w, n);
    FreshIsAnchored(w, n);
    var k := StaysOnTrack(w, waiting, n, STEPS);
    TrackConverges(End(w, waiting), turns, n, k, pick, now);
  }

  // ---- such runs exist ----

  function HealDisk(d: LocalDisk): LocalDisk {
    d.(conditions := Some([
      Condition(Ready, True, OtherReason("Ready"), Text(""), 0),
      Condition(Used, False, OtherReason("Unused"), Text(""), 0)]))
  }

  function HealFilesystem(f: Filesystem): Filesystem {
    f.(conditions := Some([
      Condition(Success, True, OtherReason("Success"), Text(""), 0),
      Condition(Healthy, True, OtherReason("Healthy"), Text(""), 0)]))
  }

  function HealedDisks(disks: seq<LocalDisk>, n: string): (r: seq<LocalDisk>)
    ensures |r| == |disks|
    ensures forall i :: 0 <= i < |r| ==> r[i] == if OwnedBy(disks[i].owners, n) then HealDisk(disks[i]) else disks[i]
  {
    if disks == [] then []
    else [if OwnedBy(disks[0].owners, n) then HealDisk(disks[0]) else disks[0]] + HealedDisks(disks[1..], n)
  }

  function HealedFilesystems(filesystems: seq<Filesystem>, n: string): (r: seq<Filesystem>)
    ensures |r| == |filesystems|
    ensures forall i :: 0 <= i < |r| ==>
      r[i] == if OwnedBy(filesystems[i].owners, n) then HealFilesystem(filesystems[i]) else filesystems[i]
  {
    if filesystems == [] then []
    else
      [if OwnedBy(filesystems[0].owners, n) then HealFilesystem(filesystems[0]) else filesystems[0]]
      + HealedFilesystems(filesystems[1..], n)
  }

  function Healed(t: World, n: string): World {
    t.(disks := HealedDisks(t.disks, n), filesystems := HealedFilesystems(t.filesystems, n))
  }

  lemma HealedUsable(d: LocalDisk, f: Filesystem, n: string)
    ensures DiskUsable(HealDisk(d), {n}) && FilesystemUsable(HealFilesystem(f))
  {
    var a, b := HealDisk(d).conditions.value, HealFilesystem(f).conditions.value;
    assert a[1..][0].kind == Used && b[1..][0].kind == Healthy;
    assert Find(a, Used) == Find(a[1..], Used) && Find(b, Healthy) == Find(b[1..], Healthy);
  }

  lemma {:induction false} DisksHeal(disks: seq<LocalDisk>, n: string)
    ensures OwnedDisks(HealedDisks(disks, n), n) == HealedDisks(OwnedDisks(disks, n), n)
  {
    if disks != [] {
      var d, rest := disks[0], disks[1..];
      DisksHeal(rest, n);
      var healed := HealedDisks(disks, n);
      assert healed[0] == (if OwnedBy(d.owners, n) then HealDisk(d) else d) && healed[1..] == HealedDisks(rest, n);
      if OwnedBy(d.owners, n) {
        HealedDisksCons(d, OwnedDisks(rest, n), n);
      }
    }
  }

  lemma HealedDisksCons(d: LocalDisk, rest: seq<LocalDisk>, n: string)
    requires OwnedBy(d.owners, n)
    ensures HealedDisks([d] + rest, n) == [HealDisk(d)] + HealedDisks(rest, n)
  {
    assert ([d] + rest)[1..] == rest;
  }

  // All disks of the list belong to n: they keep their order, names and devices, and are usable.
  lemma HealedDisksUsable(disks: seq<LocalDisk>, n: string)
    requires forall d :: d in disks ==> OwnedBy(d.owners, n)
    ensures SameDiskList(disks, HealedDisks(disks, n))
    ensures forall d :: d in HealedDisks(disks, n) ==> DiskUsable(d, {n})
  {
    var healed := HealedDisks(disks, n);
    forall i | 0 <= i < |disks| ensures healed[i] == HealDisk(disks[i]) && DiskUsable(healed[i], {n}) {
      assert disks[i] in disks;
      HealedUsable(disks[i], NewFilesystem(n, BuildSpec([])), n);
    }
  }

  lemma {:induction false} FilesystemsHeal(filesystems: seq<Filesystem>, n: string)
    ensures OwnedFilesystems(HealedFilesystems(filesystems, n), n) == HealedFilesystems(OwnedFilesystems(filesystems, n), n)
  {
    if filesystems != [] {
      var f, rest := filesystems[0], filesystems[1..];
      FilesystemsHeal(rest, n);
      var healed := HealedFilesystems(filesystems, n);
      assert healed[0] == (if OwnedBy(f.owners, n) then HealFilesystem(f) else f) && healed[1..] == HealedFilesystems(rest, n);
      if OwnedBy(f.owners, n) {
        HealedFilesystemsCons(f, OwnedFilesystems(rest, n), n);
      }
    }
  }

  lemma HealedFilesystemsCons(f: Filesystem, rest: seq<Filesystem>, n: string)
    requires OwnedBy(f.owners, n)
    ensures HealedFilesystems([f] + rest, n) == [HealFilesystem(f)] + HealedFilesystems(rest, n)
  {
    assert ([f] + rest)[1..] == rest;
  }

  lemma HealedFilesystemsUsable(filesystems: seq<Filesystem>, n: string)
    requires forall f :: f in filesystems ==> OwnedBy(f.owners, n)
    ensures SameFilesystemList(filesystems, HealedFilesystems(filesystems, n))
    ensures forall f :: f in HealedFilesystems(filesystems, n) ==> FilesystemUsable(f)
  {
    var healed := HealedFilesystems(filesystems, n);
    forall i | 0 <= i < |filesystems| ensures healed[i] == HealFilesystem(filesystems[i]) && FilesystemUsable(healed[i]) {
      assert filesystems[i] in filesystems;
      HealedUsable(NewDisk(n, "", "", ""), filesystems[i], n);
    }
  }

  lemma HealedNames(t: World, n: string, name: string)
    ensures HasDisk(HealedDisks(t.disks, n), name) ==> HasDisk(t.disks, name)
    ensures HasFilesystem(HealedFilesystems(t.filesystems, n), name) ==> HasFilesystem(t.filesystems, name)
  {
    var ds, fs := HealedDisks(t.disks, n), HealedFilesystems(t.filesystems, n);
    if d :| d in ds && d.name == name {
      var i :| 0 <= i < |ds| && ds[i] == d;
      assert t.disks[i] in t.disks && t.disks[i].name == name;
    }
    if f :| f in fs && f.name == name {
      var i :| 0 <= i < |fs| && fs[i] == f;
      assert t.filesystems[i] in t.filesystems && t.filesystems[i].name == name;
    }
  }

  lemma HealedFree(t: World, n: string, devices: seq<string>)
    requires AllFree(t, devices)
    ensures AllFree(Healed(t, n), devices)
  {
    var h := Healed(t, n);
    forall node | node in StorageNodes(h.nodes) ensures Named(h, devices, node) && NamesFree(h, devices, node, 0) {
      assert Named(t, devices, node) && NamesFree(t, devices, node, 0);
      forall k | 0 <= k < |devices| ensures !HasDisk(h.disks, DeviceWwn(h, node, devices[k]).value) {
        HealedNames(t, n, DeviceWwn(t, node, devices[k]).value);
      }
    }
  }

  lemma HealedForm(t: World, n: string)
    requires WellFormed(t)
    ensures WellFormed(Healed(t, n))
  {
    var h := Healed(t, n);
    assert forall i :: 0 <= i < |t.disks| ==> h.disks[i].name == t.disks[i].name;
    assert forall i :: 0 <= i < |t.filesystems| ==> h.filesystems[i].name == t.filesystems[i].name;
  }

  lemma HealedWaits(t: World, n: string)
    requires WellFormed(t) && n in t.claims
    ensures Waiting(t, Healed(t, n), n) && AllHealthy(Healed(t, n), n)
  {
    HealedForm(t, n);
    DisksHeal(t.disks, n);
    HealedDisksUsable(OwnedDisks(t.disks, n), n);
    FilesystemsHeal(t.filesystems, n);
    HealedFilesystemsUsable(OwnedFilesystems(t.filesystems, n), n);
    HealedNames(t, n, n);
    if AllFree(t, t.claims[n].devices) {
      HealedFree(t, n, t.claims[n].devices);
    }
  }

  lemma ClaimLasts(w: World, n: string, k: nat)
    requires Track(w, n, k) && (k > 6 || AllHealthy(w, n) || Anchored(w, n))
    ensures n in After(w, n, 0, 0).claims
  {
    if k > 6 {
      EarlyAdvances(w, n, k, 0, 0);
    } else if AllHealthy(w, n) {
      HealthyAdvances(w, n, k, 0, 0);
    } else {
      BuiltStays(w, n, k, 0, 0);
    }
  }

  // The next round, after which the resources are healed or left as they are.
  lemma NextRound(w: World, n: string, k: nat, heal: bool) returns (w': World)
    requires Track(w, n, k) && (k > 6 || AllHealthy(w, n) || Anchored(w, n))
    ensures Waiting(After(w, n, 0, 0), w', n) && (heal ==> AllHealthy(w', n))
  {
    var t := After(w, n, 0, 0);
    FormLasts(w, n, 0, 0);
    ClaimLasts(w, n, k);
    if heal {
      w' := Healed(t, n);
      HealedWaits(t, n);
    } else {
      w' := t;
    }
  }

  // A claim on its way with healthy resources has healthy rounds of every length before it.
  lemma {:induction false} HealthyRoundsExist(w: World, n: string, k: nat, rounds: nat) returns (turns: seq<Turn>)
    requires Track(w, n, k) && AllHealthy(w, n)
    ensures |turns| == rounds && Rounds(w, turns, n) && HealthyRounds(w, turns, n)
    decreases rounds
  {
    turns := [];
    if rounds > 0 {
      var w' := NextRound(w, n, k, true);
      var turn := Turn(0, 0, w');
      RoundAdvances(w, turn, n, k);
      var rest := HealthyRoundsExist(w', n, Minus(k, 1), rounds - 1);
      turns := [turn] + rest;
      assert turns[1..] == rest;
    }
  }

  // If the storage nodes agree, there are also rounds of every length after which they become so.
  lemma {:induction false} WaitingRoundsExist(w: World, n: string, k: nat, rounds: nat) returns (turns: seq<Turn>)
    requires Track(w, n, k) && k <= STEPS && Anchored(w, n)
    ensures |turns| == rounds && Rounds(w, turns, n) && (rounds > 0 ==> AllHealthy(End(w, turns), n))
    decreases rounds
  {
    turns := [];
    if rounds > 0 {
      var w' := NextRound(w, n, k, rounds == 1);
      var turn := Turn(0, 0, w');
      var k' := RoundKeepsTrack(w, turn, n, k);
      var rest := WaitingRoundsExist(w', n, k', rounds - 1);
      turns := [turn] + rest;
      assert turns[1..] == rest;
    }
  }

  // From every fresh claim there are such runs: at once healthy, of every length ...
  lemma RunsExist(w: World, n: string, rounds: nat) returns (turns: seq<Turn>)
    requires Fresh(w, n)
    ensures |turns| == rounds && Rounds(w, turns, n) && HealthyRounds(w, turns, n)
  {
    FreshIsEarly(w, n);
    turns := HealthyRoundsExist(w, n, STEPS, rounds);
  }

  // ... and healthy after any number of rounds.
  lemma WaitingRunsExist(w: World, n: string, wait: nat, rounds: nat) returns (waiting: seq<Turn>, turns: seq<Turn>)
    requires Fresh(w, n) && Agreeing(w, w.claims[n].devices) && wait > 0
    ensures |waiting| == wait && Rounds(w, waiting, n)
    ensures |turns| == rounds && Rounds(End(w, waiting), turns, n) && HealthyRounds(End(w, waiting), turns, n)
  {
    FreshIsEarly(w, n);
    FreshIsAnchored(w, n);
    waiting := WaitingRoundsExist(w, n, STEPS, wait);
    var k := StaysOnTrack(w, waiting, n, STEPS);
    turns := HealthyRoundsExist(End(w, waiting), n, k, rounds);
  }

  const DISK_A := DiscoveredDevice("/dev/a", "uuid.1")
  const DISK_B := DiscoveredDevice("/dev/b", "uuid.2")
  const TWO_DEVICES := ["/dev/a", "/dev/b"]

  // One storage node that has discovered two disks, and a new claim for both.
  const FRESH := World(map["fs" := Claim("fs", TWO_DEVICES, false, false, [], map[])], [], [], map[], [],
    [Node("n", true, true)], map["n" := [DISK_A, DISK_B]])

  lemma FreshNode()
    ensures StorageNodes(FRESH.nodes) == ["n"]
  {
    assert StorageNodes(FRESH.nodes[1..]) == [];
  }

  lemma FreshNames()
    ensures Named(FRESH, TWO_DEVICES, "n")
  {
    assert [DISK_A, DISK_B][1..] == [DISK_B];
    assert FirstWwn([DISK_A, DISK_B], "/dev/b") == FirstWwn([DISK_B], "/dev/b");
  }

  lemma FreshDiscovered()
    ensures Discovered(FRESH, "n", "/dev/a") && Discovered(FRESH, "n", "/dev/b")
  {
    assert DISK_A in FRESH.discovery["n"] && DISK_B in FRESH.discovery["n"];
  }

  // The runs above can start.
  lemma FreshExample()
    ensures Fresh(FRESH, "fs") && Agreeing(FRESH, TWO_DEVICES)
  {
    FreshNode();
    FreshNames();
    FreshDiscovered();
  }
}
