/** The disks shared by all storage nodes, as the console computes them twice: the LUN list by
    counting the entries of each WWN over all nodes, the node table by intersecting sets. */
module Luns {
  import opened Cluster
  import Creation

  /** What one storage node reports; no device list counts as an empty one. */
  datatype NodeResult = NodeResult(node: string, devices: seq<DiscoveredDevice>)

  datatype Located = Located(node: string, device: DiscoveredDevice)

  datatype Lun = Lun(selected: bool, node: string, path: string, wwn: string)

  // ---- counting ----

  function Locate(r: NodeResult): (ls: seq<Located>)
    ensures |ls| == |r.devices| && forall i :: 0 <= i < |ls| ==> ls[i] == Located(r.node, r.devices[i])
  {
    seq(|r.devices|, i requires 0 <= i < |r.devices| => Located(r.node, r.devices[i]))
  }

  // All devices of all nodes, node after node.
  function AllLocated(results: seq<NodeResult>): seq<Located> {
    if results == [] then [] else Locate(results[0]) + AllLocated(results[1..])
  }

  // The group of a WWN, in list order.
  function Group(all: seq<Located>, wwn: string): (g: seq<Located>)
    ensures forall l :: l in g <==> l in all && l.device.wwn == wwn
  {
    if all == [] then []
    else if all[0].device.wwn == wwn then [all[0]] + Group(all[1..], wwn)
    else Group(all[1..], wwn)
  }

  // The WWNs in the order in which they first occur.
  function Wwns(all: seq<Located>): seq<string> {
    if all == [] then [] else [all[0].device.wwn] + Without(Wwns(all[1..]), all[0].device.wwn)
  }

  function Without(names: seq<string>, name: string): seq<string> {
    if names == [] then []
    else if names[0] == name then Without(names[1..], name)
    else [names[0]] + Without(names[1..], name)
  }

  // The first entry of a group that has as many entries as there are nodes.
  function Represented(all: seq<Located>, wwn: string, nodes: nat): seq<Located> {
    var g := Group(all, wwn);
    if |g| == nodes && g != [] then [g[0]] else []
  }

  function Picked(all: seq<Located>, wwns: seq<string>, nodes: nat): seq<Located> {
    if wwns == [] then [] else Represented(all, wwns[0], nodes) + Picked(all, wwns[1..], nodes)
  }

  function Representatives(results: seq<NodeResult>): seq<Located> {
    Picked(AllLocated(results), Wwns(AllLocated(results)), |results|)
  }

  // ---- intersecting ----

  function WwnSet(r: NodeResult): set<string> {
    set d | d in r.devices :: d.wwn
  }

  function Intersection(first: set<string>, rest: seq<NodeResult>): set<string> {
    if rest == [] then first else Intersection(first * WwnSet(rest[0]), rest[1..])
  }

  function SharedWwns(results: seq<NodeResult>): set<string> {
    if |results| >= 2 then Intersection(WwnSet(results[0]), results[1..]) else {}
  }

  function SharedDisksCount(results: seq<NodeResult>): nat {
    |SharedWwns(results)|
  }

  // ---- the LUN list ----

  predicate Unused(disks: seq<LocalDisk>, l: Located) {
    !HasDisk(disks, l.device.wwn)
  }

  function ToLuns(ls: seq<Located>, disks: seq<LocalDisk>): seq<Lun> {
    if ls == [] then []
    else
      (if Unused(disks, ls[0]) then [Lun(false, ls[0].node, ls[0].device.path, ls[0].device.wwn)] else [])
      + ToLuns(ls[1..], disks)
  }

  function MakeLuns(results: seq<NodeResult>, disks: seq<LocalDisk>): seq<Lun> {
    ToLuns(Representatives(results), disks)
  }

  // ---- lists of WWNs ----

  lemma DistinctCons(name: string, rest: seq<string>)
    ensures Creation.Distinct([name] + rest) <==> Creation.Distinct(rest) && name !in rest
  {
    var names := [name] + rest;
    assert forall i :: 0 <= i < |rest| ==> names[i + 1] == rest[i];
    if Creation.Distinct(names) {
      forall i, j | 0 <= i < j < |rest| ensures rest[i] != rest[j] {
        assert names[i + 1] != names[j + 1];
      }
      forall i | 0 <= i < |rest| ensures rest[i] != name {
        assert names[0] != names[i + 1];
      }
    }
  }

  lemma {:induction false} WithoutMeaning(names: seq<string>, name: string)
    ensures forall n :: n in Without(names, name) <==> n in names && n != name
    ensures Creation.Distinct(names) ==> Creation.Distinct(Without(names, name))
  {
    if names != [] {
      assert names == [names[0]] + names[1..];
      WithoutMeaning(names[1..], name);
      DistinctCons(names[0], names[1..]);
      DistinctCons(names[0], Without(names[1..], name));
    }
  }

  lemma {:induction false} WwnsMeaning(all: seq<Located>)
    ensures Creation.Distinct(Wwns(all))
    ensures forall n :: n in Wwns(all) <==> exists l :: l in all && l.device.wwn == n
  {
    if all != [] {
      WwnsMeaning(all[1..]);
      WithoutMeaning(Wwns(all[1..]), all[0].device.wwn);
      DistinctCons(all[0].device.wwn, Without(Wwns(all[1..]), all[0].device.wwn));
      assert all == [all[0]] + all[1..];
    }
  }

  // ---- pigeonhole ----

  lemma {:induction false} GroupOfSum(a: seq<Located>, b: seq<Located>, wwn: string)
    ensures Group(a + b, wwn) == Group(a, wwn) + Group(b, wwn)
  {
    if a == [] {
      assert a + b == b;
    } else {
      GroupOfSum(a[1..], b, wwn);
      assert (a + b)[1..] == a[1..] + b;
    }
  }

  // Per node no WWN is repeated, as uniqueDevices sees to.
  predicate NodesUnique(results: seq<NodeResult>) {
    forall r :: r in results ==> Creation.WwnUnique(r.devices)
  }

  // A node contributes one entry to the group of a WWN it has, and none otherwise.
  lemma UniqueTail(devices: seq<DiscoveredDevice>)
    requires Creation.WwnUnique(devices) && devices != []
    ensures Creation.WwnUnique(devices[1..]) && forall d :: d in devices[1..] ==> d.wwn != devices[0].wwn
  {
    var rest := devices[1..];
    forall i, j | 0 <= i < j < |rest| ensures rest[i].wwn != rest[j].wwn {
      assert devices[i + 1].wwn != devices[j + 1].wwn;
    }
  }

  lemma {:induction false} NodeGroup(node: string, devices: seq<DiscoveredDevice>, wwn: string)
    requires Creation.WwnUnique(devices)
    ensures |Group(Locate(NodeResult(node, devices)), wwn)| == if wwn in WwnSet(NodeResult(node, devices)) then 1 else 0
  {
    if devices != [] {
      var rest := devices[1..];
      UniqueTail(devices);
      NodeGroup(node, rest, wwn);
      assert Locate(NodeResult(node, devices))[1..] == Locate(NodeResult(node, rest));
      assert devices == [devices[0]] + rest;
    }
  }

  predicate Everywhere(results: seq<NodeResult>, wwn: string) {
    forall r :: r in results ==> wwn in WwnSet(r)
  }

  // The group is never larger than the number of nodes, and as large only if no node lacks the WWN.
  lemma {:induction false} GroupSize(results: seq<NodeResult>, wwn: string)
    requires NodesUnique(results)
    ensures |Group(AllLocated(results), wwn)| <= |results|
    ensures |Group(AllLocated(results), wwn)| == |results| <==> Everywhere(results, wwn)
  {
    if results != [] {
      assert results == [results[0]] + results[1..];
      NodeGroup(results[0].node, results[0].devices, wwn);
      GroupOfSum(Locate(results[0]), AllLocated(results[1..]), wwn);
      GroupSize(results[1..], wwn);
    }
  }

  lemma {:induction false} IntersectionMeaning(first: set<string>, rest: seq<NodeResult>)
    ensures forall w :: w in Intersection(first, rest) <==> w in first && Everywhere(rest, w)
  {
    if rest != [] {
      assert rest == [rest[0]] + rest[1..];
      IntersectionMeaning(first * WwnSet(rest[0]), rest[1..]);
    }
  }

  lemma SharedMeaning(results: seq<NodeResult>)
    requires |results| >= 2
    ensures forall w :: w in SharedWwns(results) <==> Everywhere(results, w)
  {
    assert results == [results[0]] + results[1..];
    IntersectionMeaning(WwnSet(results[0]), results[1..]);
  }

  // ---- counting refines intersection ----

  function WwnsOf(ls: seq<Located>): seq<string> {
    seq(|ls|, i requires 0 <= i < |ls| => ls[i].device.wwn)
  }

  lemma {:induction false} PickedMeaning(all: seq<Located>, wwns: seq<string>, nodes: nat)
    requires nodes > 0 && Creation.Distinct(wwns)
    ensures var ws := WwnsOf(Picked(all, wwns, nodes));
      Creation.Distinct(ws) && forall w :: w in ws <==> w in wwns && |Group(all, w)| == nodes
  {
    if wwns != [] {
      assert wwns == [wwns[0]] + wwns[1..];
      DistinctCons(wwns[0], wwns[1..]);
      PickedMeaning(all, wwns[1..], nodes);
      var rest := Picked(all, wwns[1..], nodes);
      var g := Group(all, wwns[0]);
      if |g| == nodes {
        assert g[0] in g;
        assert WwnsOf([g[0]] + rest) == [wwns[0]] + WwnsOf(rest);
        DistinctCons(wwns[0], WwnsOf(rest));
      } else {
        assert [] + rest == rest;
      }
    }
  }

  // The WWNs of the representatives, once each, are exactly those present on every node.
  lemma RepresentativesAreShared(results: seq<NodeResult>)
    requires results != [] && NodesUnique(results)
    ensures var ws := WwnsOf(Representatives(results));
      Creation.Distinct(ws) && forall w :: w in ws <==> Everywhere(results, w)
  {
    var all := AllLocated(results);
    WwnsMeaning(all);
    PickedMeaning(all, Wwns(all), |results|);
    forall w ensures |Group(all, w)| == |results| <==> Everywhere(results, w) {
      GroupSize(results, w);
    }
    forall w | |Group(all, w)| == |results| ensures w in Wwns(all) {
      assert Group(all, w)[0] in Group(all, w);
    }
  }

  lemma {:induction false} DistinctCount(names: seq<string>, names': set<string>)
    requires Creation.Distinct(names) && forall n :: n in names <==> n in names'
    ensures |names| == |names'|
  {
    if names == [] {
      assert names' == {};
    } else {
      assert names == [names[0]] + names[1..];
      DistinctCons(names[0], names[1..]);
      DistinctCount(names[1..], names' - {names[0]});
    }
  }

  // With per-node unique WWNs the two computations agree for every number of nodes but one; for a
  // single node they agree exactly when it has no device.
  lemma CountingIsIntersecting(results: seq<NodeResult>)
    requires NodesUnique(results)
    ensures |Representatives(results)| == SharedDisksCount(results) <==>
      (|results| == 1 ==> results[0].devices == [])
    ensures |results| >= 2 ==> forall w :: w in WwnsOf(Representatives(results)) <==> w in SharedWwns(results)
  {
    if |results| == 0 {
      assert Representatives(results) == [];
    } else {
      RepresentativesAreShared(results);
      if |results| >= 2 {
        SharedMeaning(results);
        DistinctCount(WwnsOf(Representatives(results)), SharedWwns(results));
      } else {
        OneNode(results);
      }
    }
  }

  lemma OneNode(results: seq<NodeResult>)
    requires |results| == 1 && NodesUnique(results)
    ensures Representatives(results) == [] <==> results[0].devices == []
  {
    RepresentativesAreShared(results);
    var ws := WwnsOf(Representatives(results));
    assert results[0] in results;
    assert ws == [] || (ws[0] in ws && ws[0] in WwnSet(results[0]));
    if results[0].devices != [] {
      var d := results[0].devices[0];
      assert d in results[0].devices;
      assert Everywhere(results, d.wwn);
      assert d.wwn in ws;
    }
  }

  // Without unique WWNs counting is wrong: a WWN listed twice by one of two nodes and missing on
  // the other is taken for a shared one.
  lemma RepeatedWwnFoolsCounting() returns (results: seq<NodeResult>)
    ensures var d := DiscoveredDevice("/dev/sda", "uuid.1"); results == [NodeResult("a", [d, d]), NodeResult("b", [])]
    ensures |Representatives(results)| == 1 && SharedDisksCount(results) == 0
  {
    var d := DiscoveredDevice("/dev/sda", "uuid.1");
    var a, b := NodeResult("a", [d, d]), NodeResult("b", []);
    results := [a, b];
    var l := Located("a", d);
    assert results[1..] == [b] && [b][1..] == [];
    assert Locate(a) == [l, l] && Locate(b) == [];
    assert AllLocated([b]) == [] by {
      assert AllLocated([b][1..]) == [];
    }
    assert AllLocated(results) == [l, l] by {
      assert AllLocated(results) == Locate(a) + AllLocated(results[1..]);
    }
    assert [l, l][1..] == [l] && [l][1..] == [];
    assert Group([l], "uuid.1") == [l];
    assert Group([l, l], "uuid.1") == [l, l];
    assert Wwns([l]) == ["uuid.1"] && Without(["uuid.1"], "uuid.1") == [];
    assert Wwns([l, l]) == ["uuid.1"];
    assert Picked([l, l], ["uuid.1"], 2) == [l] by {
      assert ["uuid.1"][1..] == [];
    }
    assert SharedWwns(results) == {} by {
      assert Intersection(WwnSet(a), [b]) == Intersection(WwnSet(a) * WwnSet(b), []);
      assert WwnSet(b) == {};
    }
    assert Representatives(results) == [l];
  }

  // ---- what is offered as a LUN ----

  lemma {:induction false} LunsMeaning(ls: seq<Located>, disks: seq<LocalDisk>)
    ensures forall u :: u in ToLuns(ls, disks) <==>
      exists l :: l in ls && Unused(disks, l) && u == Lun(false, l.node, l.device.path, l.device.wwn)
  {
    if ls != [] {
      assert ls == [ls[0]] + ls[1..];
      LunsMeaning(ls[1..], disks);
    }
  }

  // The LUNs offered are exactly the WWNs that every node has and no local disk uses.
  lemma LunsAreSharedAndUnused(results: seq<NodeResult>, disks: seq<LocalDisk>, wwn: string)
    requires results != [] && NodesUnique(results)
    ensures (exists u :: u in MakeLuns(results, disks) && u.wwn == wwn) <==> Everywhere(results, wwn) && !HasDisk(disks, wwn)
  {
    var reps := Representatives(results);
    RepresentativesAreShared(results);
    LunsMeaning(reps, disks);
    if Everywhere(results, wwn) && !HasDisk(disks, wwn) {
      assert wwn in WwnsOf(reps);
      var i :| 0 <= i < |reps| && WwnsOf(reps)[i] == wwn;
      var l := reps[i];
      assert l in reps && Unused(disks, l);
      assert Lun(false, l.node, l.device.path, l.device.wwn) in MakeLuns(results, disks);
    }
    if u :| u in MakeLuns(results, disks) && u.wwn == wwn {
      var l :| l in reps && Unused(disks, l) && u == Lun(false, l.node, l.device.path, l.device.wwn);
      var i :| 0 <= i < |reps| && reps[i] == l;
      assert WwnsOf(reps)[i] == wwn;
    }
  }

  lemma {:induction false} PickedIsFirst(all: seq<Located>, wwns: seq<string>, nodes: nat, l: Located)
    requires l in Picked(all, wwns, nodes)
    ensures var g := Group(all, l.device.wwn); |g| == nodes && g != [] && l == g[0]
  {
    var g := Group(all, wwns[0]);
    if l in Picked(all, wwns[1..], nodes) {
      PickedIsFirst(all, wwns[1..], nodes, l);
    } else {
      assert l == g[0] && g[0] in g;
    }
  }

  // Node and path shown for a shared disk are those of the first node, whatever the others call it.
  lemma RepresentativeOfFirstNode(results: seq<NodeResult>, l: Located)
    requires results != [] && NodesUnique(results) && l in Representatives(results)
    ensures l.node == results[0].node && l.device in results[0].devices
  {
    var all, wwn := AllLocated(results), l.device.wwn;
    PickedIsFirst(all, Wwns(all), |results|, l);
    GroupSize(results, wwn);
    assert results[0] in results;
    NodeGroup(results[0].node, results[0].devices, wwn);
    GroupOfSum(Locate(results[0]), AllLocated(results[1..]), wwn);
    assert l in Group(Locate(results[0]), wwn);
  }

  // ---- the list as a whole ----

  // Those devices of the first node that every node has and no disk uses, in the node's order.
  function Offered(results: seq<NodeResult>, node: string, devices: seq<DiscoveredDevice>, disks: seq<LocalDisk>): seq<Lun> {
    if devices == [] then []
    else
      (if Everywhere(results, devices[0].wwn) && forall d :: d in disks ==> d.name != devices[0].wwn
       then [Lun(false, node, devices[0].path, devices[0].wwn)] else [])
      + Offered(results, node, devices[1..], disks)
  }

  // The same before the disks are looked at.
  function SharedOf(results: seq<NodeResult>, node: string, devices: seq<DiscoveredDevice>): seq<Located> {
    if devices == [] then []
    else
      (if Everywhere(results, devices[0].wwn) then [Located(node, devices[0])] else [])
      + SharedOf(results, node, devices[1..])
  }

  // The names without those of the entries.
  function Minus(names: seq<string>, ls: seq<Located>): seq<string> {
    if ls == [] then names else Without(Minus(names, ls[1..]), ls[0].device.wwn)
  }

  lemma {:induction false} WithoutSum(a: seq<string>, b: seq<string>, name: string)
    ensures Without(a + b, name) == Without(a, name) + Without(b, name)
  {
    if a == [] {
      assert a + b == b;
    } else {
      WithoutSum(a[1..], b, name);
      assert (a + b)[1..] == a[1..] + b;
    }
  }

  lemma {:induction false} WithoutAbsent(names: seq<string>, name: string)
    requires name !in names
    ensures Without(names, name) == names
  {
    if names != [] {
      WithoutAbsent(names[1..], name);
    }
  }

  lemma {:induction false} WwnsOfSum(a: seq<Located>, b: seq<Located>)
    ensures Wwns(a + b) == Wwns(a) + Minus(Wwns(b), a)
  {
    if a == [] {
      assert a + b == b;
    } else {
      WwnsOfSum(a[1..], b);
      assert (a + b)[1..] == a[1..] + b;
      WithoutSum(Wwns(a[1..]), Minus(Wwns(b), a[1..]), a[0].device.wwn);
    }
  }

  lemma {:induction false} MinusMeaning(names: seq<string>, ls: seq<Located>)
    ensures forall n :: n in Minus(names, ls) ==> forall l :: l in ls ==> l.device.wwn != n
  {
    if ls != [] {
      MinusMeaning(names, ls[1..]);
      WithoutMeaning(Minus(names, ls[1..]), ls[0].device.wwn);
      assert ls == [ls[0]] + ls[1..];
    }
  }

  lemma {:induction false} UniqueWwns(node: string, devices: seq<DiscoveredDevice>)
    requires Creation.WwnUnique(devices)
    ensures Wwns(Locate(NodeResult(node, devices))) == WwnsOf(Locate(NodeResult(node, devices)))
  {
    if devices != [] {
      var ls, rest := Locate(NodeResult(node, devices)), Locate(NodeResult(node, devices[1..]));
      UniqueTail(devices);
      UniqueWwns(node, devices[1..]);
      assert ls[1..] == rest;
      assert WwnsOf(ls) == [ls[0].device.wwn] + WwnsOf(rest);
      forall i | 0 <= i < |rest| ensures WwnsOf(rest)[i] != ls[0].device.wwn {
        assert devices[1..][i] in devices[1..];
      }
      WithoutAbsent(WwnsOf(rest), ls[0].device.wwn);
    }
  }

  lemma Associate(a: seq<Located>, b: seq<Located>, c: seq<Located>)
    ensures a + (b + c) == a + b + c
  {
  }

  lemma {:induction false} PickedSum(all: seq<Located>, a: seq<string>, b: seq<string>, nodes: nat)
    ensures Picked(all, a + b, nodes) == Picked(all, a, nodes) + Picked(all, b, nodes)
  {
    if a == [] {
      assert a + b == b;
    } else {
      PickedSum(all, a[1..], b, nodes);
      assert (a + b)[1..] == a[1..] + b && (a + b)[0] == a[0];
      Associate(Represented(all, a[0], nodes), Picked(all, a[1..], nodes), Picked(all, b, nodes));
    }
  }

  lemma {:induction false} PickedNone(all: seq<Located>, wwns: seq<string>, nodes: nat)
    requires forall w :: w in wwns ==> |Group(all, w)| != nodes
    ensures Picked(all, wwns, nodes) == []
  {
    if wwns != [] {
      PickedNone(all, wwns[1..], nodes);
    }
  }

  // The group of a WWN of the first node starts with that node's entry.
  lemma GroupStarts(results: seq<NodeResult>, d: DiscoveredDevice)
    requires results != [] && NodesUnique(results) && d in results[0].devices
    ensures var g := Group(AllLocated(results), d.wwn); g != [] && g[0] == Located(results[0].node, d)
  {
    var r := results[0];
    assert r in results;
    NodeGroup(r.node, r.devices, d.wwn);
    GroupOfSum(Locate(r), AllLocated(results[1..]), d.wwn);
    var g := Group(Locate(r), d.wwn);
    assert g[0] in g && g[0] in Locate(r);
    assert g[0].device in r.devices && g[0].device.wwn == d.wwn;
    SameEntry(r.devices, g[0].device, d);
  }

  lemma SameEntry(devices: seq<DiscoveredDevice>, a: DiscoveredDevice, b: DiscoveredDevice)
    requires Creation.WwnUnique(devices) && a in devices && b in devices && a.wwn == b.wwn
    ensures a == b
  {
    var i :| 0 <= i < |devices| && devices[i] == a;
    var j :| 0 <= j < |devices| && devices[j] == b;
    assert i == j;
  }

  lemma {:induction false} PickedOfFirst(results: seq<NodeResult>, devices: seq<DiscoveredDevice>)
    requires results != [] && NodesUnique(results) && forall d :: d in devices ==> d in results[0].devices
    ensures Picked(AllLocated(results), WwnsOf(Locate(NodeResult(results[0].node, devices))), |results|) ==
      SharedOf(results, results[0].node, devices)
  {
    var all, ls := AllLocated(results), Locate(NodeResult(results[0].node, devices));
    if devices != [] {
      var rest := Locate(NodeResult(results[0].node, devices[1..]));
      assert WwnsOf(ls)[1..] == WwnsOf(rest);
      PickedOfFirst(results, devices[1..]);
      GroupStarts(results, devices[0]);
      GroupSize(results, devices[0].wwn);
    }
  }

  lemma RepresentativesOfFirst(results: seq<NodeResult>)
    requires results != [] && NodesUnique(results)
    ensures Representatives(results) == SharedOf(results, results[0].node, results[0].devices)
  {
    var r, all := results[0], AllLocated(results);
    var a, b := Locate(r), AllLocated(results[1..]);
    assert r == NodeResult(r.node, r.devices) && r in results;
    WwnsOfSum(a, b);
    UniqueWwns(r.node, r.devices);
    PickedSum(all, WwnsOf(a), Minus(Wwns(b), a), |results|);
    PickedOfFirst(results, r.devices);
    MinusMeaning(Wwns(b), a);
    forall w | w in Minus(Wwns(b), a) ensures |Group(all, w)| != |results| {
      GroupSize(results, w);
      assert forall i :: 0 <= i < |r.devices| ==> a[i] in a && a[i].device == r.devices[i];
      assert w !in WwnSet(r);
    }
    PickedNone(all, Minus(Wwns(b), a), |results|);
  }

  lemma {:induction false} LunsOfShared(results: seq<NodeResult>, node: string, devices: seq<DiscoveredDevice>, disks: seq<LocalDisk>)
    ensures ToLuns(SharedOf(results, node, devices), disks) == Offered(results, node, devices, disks)
  {
    if devices != [] {
      LunsOfShared(results, node, devices[1..], disks);
      var rest := SharedOf(results, node, devices[1..]);
      assert ([Located(node, devices[0])] + rest)[1..] == rest && [] + rest == rest;
      assert HasDisk(disks, devices[0].wwn) <==> !forall d :: d in disks ==> d.name != devices[0].wwn;
    }
  }

  // The whole list: the first node's devices that every node has and no disk is named like, in that
  // node's order, unselected.
  lemma LunsAreOfFirstNode(results: seq<NodeResult>, disks: seq<LocalDisk>)
    requires results != [] && NodesUnique(results)
    ensures MakeLuns(results, disks) == Offered(results, results[0].node, results[0].devices, disks)
  {
    RepresentativesOfFirst(results);
    LunsOfShared(results, results[0].node, results[0].devices, disks);
  }
}
