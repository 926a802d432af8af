/** One undisturbed creation pass is a bijection from the claim's devices to the disks it makes. */
module Creation {
  import opened Conditions
  import opened Cluster
  import opened ReconcilerSpec
  import opened ReadySoundness

  // ---- distinct devices have distinct WWNs ----

  predicate WwnUnique(found: seq<DiscoveredDevice>) {
    forall i, j :: 0 <= i < j < |found| ==> found[i].wwn != found[j].wwn
  }

  predicate Distinct(devices: seq<string>) {
    forall i, j :: 0 <= i < j < |devices| ==> devices[i] != devices[j]
  }

  lemma {:induction false} FirstWwnAt(found: seq<DiscoveredDevice>, device: string) returns (i: nat)
    requires FirstWwn(found, device).Some?
    ensures i < |found| && found[i].path == device && found[i].wwn == FirstWwn(found, device).value
  {
    if found[0].path == device {
      i := 0;
    } else {
      var j := FirstWwnAt(found[1..], device);
      i := j + 1;
    }
  }

  lemma DifferentWwns(found: seq<DiscoveredDevice>, a: string, b: string)
    requires WwnUnique(found) && a != b && FirstWwn(found, a).Some? && FirstWwn(found, b).Some?
    ensures FirstWwn(found, a) != FirstWwn(found, b)
  {
    var i := FirstWwnAt(found, a);
    var j := FirstWwnAt(found, b);
    assert i != j;
    if i < j {
      assert found[i].wwn != found[j].wwn;
    } else {
      assert found[j].wwn != found[i].wwn;
    }
  }

  // ---- the pass ----

  // On this node every device has a usable WWN, and the discovery result is free of duplicates.
  predicate Named(w: World, devices: seq<string>, node: string) {
    && node in w.discovery && WwnUnique(w.discovery[node])
    && forall d :: d in devices ==> DeviceWwn(w, node, d).Some? && ValidName(DeviceWwn(w, node, d).value)
  }

  // No disk has the WWN of one of the devices from the i-th on.
  predicate NamesFree(w: World, devices: seq<string>, node: string, i: nat)
    requires Named(w, devices, node)
  {
    forall k :: i <= k < |devices| ==> !HasDisk(w.disks, DeviceWwn(w, node, devices[k]).value)
  }

  // One disk per device.
  function MadeDisks(w: World, c: Claim, node: string): (r: seq<LocalDisk>)
    requires Named(w, c.devices, node)
    ensures |r| == |c.devices|
    ensures forall i :: 0 <= i < |r| ==> r[i] == NewDisk(c.name, DeviceWwn(w, node, c.devices[i]).value, c.devices[i], node)
  {
    seq(|c.devices|, i requires 0 <= i < |c.devices| =>
      NewDisk(c.name, DeviceWwn(w, node, c.devices[i]).value, c.devices[i], node))
  }

  function InProgress(now: int): Condition {
    Condition(LocalDiskCreated, False, LocalDiskCreationInProgress, DisksCreated, now)
  }

  // The world after the disks `made` were created for the claim.
  function Grown(w: World, c: Claim, made: seq<LocalDisk>, now: int): World
    requires c.name in w.claims
  {
    var stored := w.claims[c.name];
    var conditions := if made == [] then stored.conditions else Updated(stored.conditions, InProgress(now));
    w.(disks := w.disks + made, claims := w.claims[c.name := stored.(conditions := conditions)])
  }

  lemma {:induction false} UpdatedTwice(conditions: seq<Condition>, x: Condition)
    ensures Updated(Updated(conditions, x), x) == Updated(conditions, x)
  {
    if conditions != [] && conditions[0].kind != x.kind {
      UpdatedTwice(conditions[1..], x);
      assert Updated(conditions, x)[1..] == Updated(conditions[1..], x);
    }
  }

  lemma GrownTwice(w: World, c: Claim, d: LocalDisk, made: seq<LocalDisk>, now: int)
    requires c.name in w.claims
    ensures Grown(Grown(w, c, [d], now), c, made, now) == Grown(w, c, [d] + made, now)
  {
    UpdatedTwice(w.claims[c.name].conditions, InProgress(now));
    assert w.disks + [d] + made == w.disks + ([d] + made);
  }

  // One round of the loop: the disk is created and the condition noted.
  lemma DiskAppended(s: State, c: Claim, d: LocalDisk)
    requires s.faults == [] && c.name in s.world.claims && !HasDisk(s.world.disks, d.name)
    requires !HasReason(c.conditions, LocalDiskCreated, LocalDiskCreationInProgress)
    ensures var made := CreateDisk(s, c.name, d);
      var noted := UpdateIfChanged(made.s, c, LocalDiskCreated, False, LocalDiskCreationInProgress, DisksCreated);
      && made.ok && noted.out == Requeue && noted.s.faults == [] && noted.s.now == s.now
      && noted.s.world == Grown(s.world, c, [d], s.now)
  {
    var cs := s.world.claims[c.name].conditions;
    assert UpdatedAll(cs, [InProgress(s.now)]) == Updated(cs, InProgress(s.now)) by {
      assert [InProgress(s.now)][1..] == [];
      assert UpdatedAll(Updated(cs, InProgress(s.now)), []) == Updated(cs, InProgress(s.now));
    }
  }

  lemma StillFree(w: World, c: Claim, node: string, i: nat, now: int)
    requires c.name in w.claims && Named(w, c.devices, node) && Distinct(c.devices)
    requires i < |c.devices| && NamesFree(w, c.devices, node, i)
    ensures var w' := Grown(w, c, [MadeDisks(w, c, node)[i]], now);
      && Named(w', c.devices, node) && NamesFree(w', c.devices, node, i + 1)
      && MadeDisks(w', c, node) == MadeDisks(w, c, node)
  {
    var d := MadeDisks(w, c, node)[i];
    var w' := Grown(w, c, [d], now);
    assert w'.discovery == w.discovery && w'.disks == w.disks + [d];
    forall k | i + 1 <= k < |c.devices| ensures !HasDisk(w'.disks, DeviceWwn(w, node, c.devices[k]).value) {
      DifferentWwns(w.discovery[node], c.devices[i], c.devices[k]);
    }
  }

  lemma LoopGoesOn(s: State, c: Claim, node: string, i: nat, created: bool, d: LocalDisk)
    requires s.faults == [] && c.name in s.world.claims && i < |c.devices| && Named(s.world, c.devices, node)
    requires !HasReason(c.conditions, LocalDiskCreated, LocalDiskCreationInProgress)
    requires d == MadeDisks(s.world, c, node)[i] && !HasDisk(s.world.disks, d.name)
    ensures var noted := UpdateIfChanged(CreateDisk(s, c.name, d).s, c, LocalDiskCreated, False, LocalDiskCreationInProgress,
                           DisksCreated);
      && CreateDisks(s, c, node, i, created) == CreateDisks(noted.s, c, node, i + 1, true)
      && noted.s.faults == [] && noted.s.now == s.now && noted.s.world == Grown(s.world, c, [d], s.now)
  {
    assert c.devices[i] in c.devices;
    DiskAppended(s, c, d);
  }

  lemma {:induction false} CreatesRest(s: State, c: Claim, node: string, i: nat, created: bool)
    requires s.faults == [] && c.name in s.world.claims && i <= |c.devices|
    requires !HasReason(c.conditions, LocalDiskCreated, LocalDiskCreationInProgress)
    requires Named(s.world, c.devices, node) && Distinct(c.devices) && NamesFree(s.world, c.devices, node, i)
    ensures var t := CreateDisks(s, c, node, i, created);
      && t.out == (if created || i < |c.devices| then Requeue else Continue)
      && t.s.faults == [] && t.s.now == s.now
      && t.s.world == Grown(s.world, c, MadeDisks(s.world, c, node)[i..], s.now)
    decreases |c.devices| - i
  {
    var made := MadeDisks(s.world, c, node);
    if i == |c.devices| {
      assert Grown(s.world, c, [], s.now) == s.world;
    } else {
      var d := made[i];
      LoopGoesOn(s, c, node, i, created, d);
      StillFree(s.world, c, node, i, s.now);
      var noted := UpdateIfChanged(CreateDisk(s, c.name, d).s, c, LocalDiskCreated, False, LocalDiskCreationInProgress, DisksCreated);
      CreatesRest(noted.s, c, node, i + 1, true);
      GrownTwice(s.world, c, d, made[i + 1..], s.now);
      assert [d] + made[i + 1..] == made[i..];
    }
  }

  // ---- the bijection ----

  // Pairwise different names, one per device and in its order, all on one node, all the claim's.
  predicate Bijective(made: seq<LocalDisk>, c: Claim, node: string) {
    && |made| == |c.devices|
    && (forall i :: 0 <= i < |made| ==>
          made[i].device == c.devices[i] && made[i].node == node && made[i].owners == [ClaimRef(c.name)])
    && (forall i, j :: 0 <= i < j < |made| ==> made[i].name != made[j].name)
  }

  lemma MadeBijective(w: World, c: Claim, node: string)
    requires Named(w, c.devices, node) && Distinct(c.devices)
    ensures Bijective(MadeDisks(w, c, node), c, node)
  {
    forall i, j | 0 <= i < j < |c.devices|
      ensures DeviceWwn(w, node, c.devices[i]) != DeviceWwn(w, node, c.devices[j])
    {
      assert c.devices[i] in c.devices && c.devices[j] in c.devices;
      DifferentWwns(w.discovery[node], c.devices[i], c.devices[j]);
    }
  }

  lemma {:induction false} OwnedOfSum(a: seq<LocalDisk>, b: seq<LocalDisk>, n: string)
    ensures OwnedDisks(a + b, n) == OwnedDisks(a, n) + OwnedDisks(b, n)
  {
    if a == [] {
      assert a + b == b;
    } else {
      OwnedOfSum(a[1..], b, n);
      assert (a + b)[1..] == a[1..] + b;
    }
  }

  lemma {:induction false} AllOwned(made: seq<LocalDisk>, n: string)
    requires forall d :: d in made ==> OwnedBy(d.owners, n)
    ensures OwnedDisks(made, n) == made
  {
    if made != [] {
      AllOwned(made[1..], n);
    }
  }

  lemma DevicesOfMade(made: seq<LocalDisk>, c: Claim, node: string)
    requires Bijective(made, c, node) && "" !in c.devices
    ensures DeviceSet(made) == ToSet(c.devices)
  {
    forall d | d in c.devices ensures d in DeviceSet(made) {
      var i :| 0 <= i < |c.devices| && c.devices[i] == d;
      assert made[i] in made && made[i].device == d;
    }
  }

  // For a claim whose devices are distinct, whose WWNs are usable and not taken and that owns no
  // disk yet, one pass makes exactly one disk per device; the claim then owns exactly these, and
  // their devices are exactly its own.
  lemma PassIsBijective(s: State, c: Claim) returns (made: seq<LocalDisk>)
    requires s.faults == [] && Snapshot(s, c)
    requires !HasReason(c.conditions, LocalDiskCreated, LocalDiskCreationInProgress)
    requires c.devices != [] && Distinct(c.devices) && "" !in c.devices && StorageNodes(s.world.nodes) != []
    requires OwnedDisks(s.world.disks, c.name) == []
    requires forall n :: n in StorageNodes(s.world.nodes) ==>
      Named(s.world, c.devices, n) && NamesFree(s.world, c.devices, n, 0)
    ensures var t := CreateStage(s, c); var node := Picked(StorageNodes(s.world.nodes), s.pick);
      && t.out == Requeue && node in StorageNodes(s.world.nodes)
      && Bijective(made, c, node) && made == MadeDisks(s.world, c, node)
      && t.s.world == Grown(s.world, c, made, s.now) && t.s.world.disks == s.world.disks + made
      && (forall d :: d in made ==> !HasDisk(s.world.disks, d.name))
      && OwnedDisks(t.s.world.disks, c.name) == made
      && DeviceSet(OwnedDisks(t.s.world.disks, c.name)) == ToSet(c.devices)
  {
    var node := Picked(StorageNodes(s.world.nodes), s.pick);
    made := MadeDisks(s.world, c, node);
    CreatesRest(s, c, node, 0, false);
    assert made[0..] == made;
    MadeBijective(s.world, c, node);
    AllOwned(made, c.name);
    OwnedOfSum(s.world.disks, made, c.name);
    DevicesOfMade(made, c, node);
  }

  // A failed LocalDiskCreated makes the controller enter the creation again. If the node it picks
  // then knows the devices by WWNs that no disk has, it makes a second disk for every device.
  lemma SecondPassMakesMore(s: State, c: Claim, node: string)
    requires s.faults == [] && Snapshot(s, c) && c.devices != [] && Distinct(c.devices)
    requires IsTrue(c.conditions, DeviceValidated) && !IsTrue(c.conditions, LocalDiskCreated)
    requires !HasReason(c.conditions, LocalDiskCreated, LocalDiskCreationInProgress)
    requires StorageNodes(s.world.nodes) != [] && node == Picked(StorageNodes(s.world.nodes), s.pick)
    requires Named(s.world, c.devices, node) && NamesFree(s.world, c.devices, node, 0)
    ensures var t := EnsureLocalDisks(s, c);
      && t.out == Requeue && t.s.world.disks == s.world.disks + MadeDisks(s.world, c, node)
      && |OwnedDisks(t.s.world.disks, c.name)| == |OwnedDisks(s.world.disks, c.name)| + |c.devices|
  {
    var made := MadeDisks(s.world, c, node);
    CreatesRest(s, c, node, 0, false);
    assert made[0..] == made;
    AllOwned(made, c.name);
    OwnedOfSum(s.world.disks, made, c.name);
  }
}
