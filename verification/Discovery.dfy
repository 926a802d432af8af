/** De-duplication of the devices discovered on a node, by WWN. */
module Discovery {
  import opened Cluster
  import Creation

  // The position of the first entry of a WWN, or the length if there is none.
  function First(sample: seq<DiscoveredDevice>, wwn: string): (i: nat)
    ensures i <= |sample|
    ensures i < |sample| ==> sample[i].wwn == wwn
    ensures forall j :: 0 <= j < i ==> sample[j].wwn != wwn
  {
    if sample == [] || sample[0].wwn == wwn then 0 else 1 + First(sample[1..], wwn)
  }

  predicate LastAt(sample: seq<DiscoveredDevice>, k: nat) {
    k < |sample| && forall l :: k < l < |sample| ==> sample[l].wwn != sample[k].wwn
  }

  // The entry is the last one of its WWN.
  predicate IsLast(sample: seq<DiscoveredDevice>, d: DiscoveredDevice) {
    exists k :: 0 <= k < |sample| && LastAt(sample, k) && sample[k] == d
  }

  predicate Covers(r: seq<DiscoveredDevice>, wwn: string) {
    exists i :: 0 <= i < |r| && r[i].wwn == wwn
  }

  predicate InOrder(sample: seq<DiscoveredDevice>, r: seq<DiscoveredDevice>) {
    forall i, j :: 0 <= i < j < |r| ==> First(sample, r[i].wwn) < First(sample, r[j].wwn)
  }

  // What de-duplication means: the WWNs of the sample, once each, every one with its last entry,
  // in the order in which they first occurred.
  predicate IsDeduped(sample: seq<DiscoveredDevice>, r: seq<DiscoveredDevice>) {
    && Creation.WwnUnique(r)
    && (forall d :: d in sample ==> Covers(r, d.wwn))
    && (forall d :: d in r ==> IsLast(sample, d))
    && InOrder(sample, r)
  }

  lemma {:induction false} FirstOfMore(sample: seq<DiscoveredDevice>, v: DiscoveredDevice, wwn: string)
    ensures First(sample + [v], wwn) ==
      if First(sample, wwn) < |sample| then First(sample, wwn) else if v.wwn == wwn then |sample| else |sample| + 1
  {
    if sample != [] && sample[0].wwn != wwn {
      FirstOfMore(sample[1..], v, wwn);
      assert (sample + [v])[1..] == sample[1..] + [v];
    }
  }

  lemma LastOfMore(sample: seq<DiscoveredDevice>, v: DiscoveredDevice, d: DiscoveredDevice)
    requires d == v || (IsLast(sample, d) && d.wwn != v.wwn)
    ensures IsLast(sample + [v], d)
  {
    if d == v {
      assert LastAt(sample + [v], |sample|);
    } else {
      var k :| 0 <= k < |sample| && LastAt(sample, k) && sample[k] == d;
      assert LastAt(sample + [v], k);
    }
  }

  lemma KnownEarlier(sample: seq<DiscoveredDevice>, d: DiscoveredDevice)
    requires IsLast(sample, d)
    ensures First(sample, d.wwn) < |sample|
  {
    var k :| 0 <= k < |sample| && LastAt(sample, k) && sample[k] == d;
  }

  // A repeated WWN replaces the entry it has.
  lemma Replaced(sample: seq<DiscoveredDevice>, r: seq<DiscoveredDevice>, v: DiscoveredDevice, i: nat)
    requires IsDeduped(sample, r) && i < |r| && r[i].wwn == v.wwn
    ensures IsDeduped(sample + [v], r[i := v])
  {
    var r' := r[i := v];
    forall j | 0 <= j < |r| ensures r'[j].wwn == r[j].wwn && IsLast(sample + [v], r'[j]) {
      assert r[j] in r;
      LastOfMore(sample, v, r'[j]);
    }
    forall j, k | 0 <= j < k < |r'| ensures First(sample + [v], r'[j].wwn) < First(sample + [v], r'[k].wwn) {
      assert r[j] in r && r[k] in r;
      KnownEarlier(sample, r[j]);
      KnownEarlier(sample, r[k]);
      FirstOfMore(sample, v, r[j].wwn);
      FirstOfMore(sample, v, r[k].wwn);
    }
    forall d | d in sample + [v] ensures Covers(r', d.wwn) {
      if d in sample {
        var j :| 0 <= j < |r| && r[j].wwn == d.wwn;
        assert r'[j].wwn == d.wwn;
      } else {
        assert r'[i].wwn == d.wwn;
      }
    }
  }

  // A new WWN goes to the end.
  lemma Appended(sample: seq<DiscoveredDevice>, r: seq<DiscoveredDevice>, v: DiscoveredDevice)
    requires IsDeduped(sample, r) && forall d :: d in r ==> d.wwn != v.wwn
    ensures IsDeduped(sample + [v], r + [v])
  {
    var r' := r + [v];
    forall d | d in r' ensures IsLast(sample + [v], d) {
      LastOfMore(sample, v, d);
    }
    AppendedInOrder(sample, r, v);
    forall d | d in sample + [v] ensures Covers(r', d.wwn) {
      if d in sample {
        var j :| 0 <= j < |r| && r[j].wwn == d.wwn;
        assert r'[j].wwn == d.wwn;
      } else {
        assert r'[|r|].wwn == d.wwn;
      }
    }
  }

  lemma AppendedInOrder(sample: seq<DiscoveredDevice>, r: seq<DiscoveredDevice>, v: DiscoveredDevice)
    requires InOrder(sample, r) && (forall d :: d in r ==> IsLast(sample, d) && d.wwn != v.wwn)
    requires forall d :: d in sample ==> Covers(r, d.wwn)
    ensures InOrder(sample + [v], r + [v])
  {
    var r' := r + [v];
    forall j | 0 <= j < |r| ensures First(sample + [v], r'[j].wwn) == First(sample, r[j].wwn) < |sample| {
      assert r[j] in r;
      KnownEarlier(sample, r[j]);
      FirstOfMore(sample, v, r[j].wwn);
    }
    FirstOfMore(sample, v, v.wwn);
    if First(sample, v.wwn) < |sample| {
      assert sample[First(sample, v.wwn)] in sample;
      var j :| 0 <= j < |r| && r[j].wwn == v.wwn;
      assert false;
    }
  }

  // What one more entry does to the result so far.
  function Placed(r: seq<DiscoveredDevice>, v: DiscoveredDevice): seq<DiscoveredDevice> {
    var i := First(r, v.wwn);
    if i < |r| then r[i := v] else r + [v]
  }

  function Deduped(sample: seq<DiscoveredDevice>): seq<DiscoveredDevice> {
    if sample == [] then [] else Placed(Deduped(sample[..|sample| - 1]), sample[|sample| - 1])
  }

  lemma {:induction false} DedupedMeaning(sample: seq<DiscoveredDevice>)
    ensures IsDeduped(sample, Deduped(sample))
  {
    if sample != [] {
      var before, v := sample[..|sample| - 1], sample[|sample| - 1];
      DedupedMeaning(before);
      assert sample == before + [v];
      var r := Deduped(before);
      if First(r, v.wwn) < |r| {
        Replaced(before, r, v, First(r, v.wwn));
      } else {
        Appended(before, r, v);
      }
    }
  }

  // The map knows exactly the WWNs of the result, and where they are.
  ghost predicate Indexed(positions: map<string, nat>, r: seq<DiscoveredDevice>) {
    forall w :: (w in positions <==> First(r, w) < |r|) && (w in positions ==> positions[w] == First(r, w))
  }

  lemma IndexedReplaced(positions: map<string, nat>, r: seq<DiscoveredDevice>, v: DiscoveredDevice)
    requires Indexed(positions, r) && v.wwn in positions
    ensures Indexed(positions, Placed(r, v))
  {
    forall w {
      SameFirst(r, Placed(r, v), w);
    }
  }

  lemma {:induction false} SameFirst(r: seq<DiscoveredDevice>, r': seq<DiscoveredDevice>, wwn: string)
    requires |r| == |r'| && forall i :: 0 <= i < |r| ==> r[i].wwn == r'[i].wwn
    ensures First(r, wwn) == First(r', wwn)
  {
    if r != [] && r[0].wwn != wwn {
      SameFirst(r[1..], r'[1..], wwn);
    }
  }

  lemma IndexedAppended(positions: map<string, nat>, r: seq<DiscoveredDevice>, v: DiscoveredDevice)
    requires Indexed(positions, r) && v.wwn !in positions
    ensures Indexed(positions[v.wwn := |r|], Placed(r, v))
  {
    forall w {
      FirstOfMore(r, v, w);
    }
  }

  // uniqueDevices: `positions` maps each WWN to its place in the result.
  method UniqueDevices(sample: seq<DiscoveredDevice>) returns (unique: seq<DiscoveredDevice>)
    ensures IsDeduped(sample, unique)
  {
    unique := [];
    var positions: map<string, nat> := map[];
    for n := 0 to |sample|
      invariant unique == Deduped(sample[..n]) && Indexed(positions, unique)
    {
      var v := sample[n];
      assert sample[..n + 1][..n] == sample[..n];
      if v.wwn in positions {
        IndexedReplaced(positions, unique, v);
        unique := unique[positions[v.wwn] := v];
      } else {
        IndexedAppended(positions, unique, v);
        positions := positions[v.wwn := |unique|];
        unique := unique + [v];
      }
    }
    assert sample[..|sample|] == sample;
    DedupedMeaning(sample);
  }

  // ---- the meaning determines the result ----

  lemma SameLast(sample: seq<DiscoveredDevice>, d: DiscoveredDevice, e: DiscoveredDevice)
    requires IsLast(sample, d) && IsLast(sample, e) && d.wwn == e.wwn
    ensures d == e
  {
    var k :| 0 <= k < |sample| && LastAt(sample, k) && sample[k] == d;
    var l :| 0 <= l < |sample| && LastAt(sample, l) && sample[l] == e;
    assert k == l;
  }

  lemma LastIsIn(sample: seq<DiscoveredDevice>, d: DiscoveredDevice)
    requires IsLast(sample, d)
    ensures d in sample
  {
  }

  // Of two results that agree up to i, the second does not have a later WWN next than the first.
  lemma NotLater(sample: seq<DiscoveredDevice>, r: seq<DiscoveredDevice>, r': seq<DiscoveredDevice>, i: nat)
    requires Creation.WwnUnique(r) && InOrder(sample, r') && i < |r| && i <= |r'| && r[..i] == r'[..i]
    requires Covers(r', r[i].wwn)
    ensures i < |r'| && First(sample, r'[i].wwn) <= First(sample, r[i].wwn)
  {
    assert forall m :: 0 <= m < i ==> r[m] == r[..i][m] == r'[..i][m] == r'[m];
    var j :| 0 <= j < |r'| && r'[j].wwn == r[i].wwn;
    assert j >= i;
  }

  lemma EachCovered(sample: seq<DiscoveredDevice>, r: seq<DiscoveredDevice>, r': seq<DiscoveredDevice>, i: nat)
    requires IsDeduped(sample, r) && IsDeduped(sample, r') && i < |r|
    ensures Covers(r', r[i].wwn)
  {
    assert r[i] in r;
    LastIsIn(sample, r[i]);
  }

  lemma SameNext(sample: seq<DiscoveredDevice>, d: DiscoveredDevice, e: DiscoveredDevice)
    requires IsLast(sample, d) && IsLast(sample, e) && First(sample, d.wwn) == First(sample, e.wwn)
    ensures d == e
  {
    KnownEarlier(sample, d);
    KnownEarlier(sample, e);
    assert d.wwn == sample[First(sample, d.wwn)].wwn == e.wwn;
    SameLast(sample, d, e);
  }

  lemma EachIsLast(sample: seq<DiscoveredDevice>, r: seq<DiscoveredDevice>, i: nat)
    requires IsDeduped(sample, r) && i < |r|
    ensures IsLast(sample, r[i])
  {
    assert r[i] in r;
  }

  lemma {:induction false} AgreeUpTo(sample: seq<DiscoveredDevice>, r: seq<DiscoveredDevice>, r': seq<DiscoveredDevice>, i: nat)
    requires IsDeduped(sample, r) && IsDeduped(sample, r') && i <= |r|
    ensures i <= |r'| && r[..i] == r'[..i]
  {
    if i > 0 {
      AgreeUpTo(sample, r, r', i - 1);
      EachCovered(sample, r, r', i - 1);
      NotLater(sample, r, r', i - 1);
      EachCovered(sample, r', r, i - 1);
      NotLater(sample, r', r, i - 1);
      EachIsLast(sample, r, i - 1);
      EachIsLast(sample, r', i - 1);
      SameNext(sample, r[i - 1], r'[i - 1]);
      assert r[..i] == r[..i - 1] + [r[i - 1]] && r'[..i] == r'[..i - 1] + [r'[i - 1]];
    }
  }

  // There is only one way to de-duplicate a list.
  lemma DedupedIsDetermined(sample: seq<DiscoveredDevice>, r: seq<DiscoveredDevice>, r': seq<DiscoveredDevice>)
    requires IsDeduped(sample, r) && IsDeduped(sample, r')
    ensures r == r'
  {
    AgreeUpTo(sample, r, r', |r|);
    AgreeUpTo(sample, r', r, |r'|);
    assert r[..|r|] == r && r'[..|r'|] == r';
  }

  // A list without repeated WWNs is its own result, so a second run changes nothing.
  lemma SecondRunKeeps(sample: seq<DiscoveredDevice>, r: seq<DiscoveredDevice>, again: seq<DiscoveredDevice>)
    requires IsDeduped(sample, r) && IsDeduped(r, again)
    ensures again == r
  {
    forall i | 0 <= i < |r| ensures First(r, r[i].wwn) == i && LastAt(r, i) {
      if First(r, r[i].wwn) < i {
        assert false;
      }
    }
    assert IsDeduped(r, r);
    DedupedIsDetermined(r, r, again);
  }
}
