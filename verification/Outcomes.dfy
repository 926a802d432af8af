/** What a status write changes, by the conditions found before and after it. */
module Outcomes {
  import opened Conditions
  import opened Cluster
  import opened ReconcilerSpec
  import opened ReadySoundness
  import DeletionTermination

  // At most the claim's conditions of these types have changed.
  predicate OnlyStatus(w: World, w': World, n: string, kinds: set<ConditionType>) {
    && n in w.claims && n in w'.claims
    && w' == w.(claims := w.claims[n := w.claims[n].(conditions := w'.claims[n].conditions)])
    && forall k :: k !in kinds ==> Find(w'.claims[n].conditions, k) == Find(w.claims[n].conditions, k)
  }

  // The first condition of the type is False for this reason.
  predicate FalseFor(conditions: seq<Condition>, kind: ConditionType, reason: Reason) {
    HasReason(conditions, kind, reason) && Find(conditions, kind).value.status == False
  }

  lemma OneNews(s: State, c: Claim, x: Condition)
    requires s.faults == [] && Snapshot(s, c)
    ensures var p := PatchStatus(s, c.name, [x]);
      && p.ok && OnlyStatus(s.world, p.s.world, c.name, {x.kind})
      && Find(p.s.world.claims[c.name].conditions, x.kind) == Some(x)
      && (IsTrue(p.s.world.claims[c.name].conditions, x.kind) <==> x.status == True)
  {
    var w' := PatchStatus(s, c.name, [x]).s.world;
    forall k ensures Find(w'.claims[c.name].conditions, k) == if k == x.kind then Some(x) else Find(c.conditions, k) {
      DeletionTermination.OnePatched(c.conditions, x, k);
    }
    DeletionTermination.OnePatched(c.conditions, x, x.kind);
  }

  lemma TwoPatched(conditions: seq<Condition>, x: Condition, y: Condition, k: ConditionType)
    requires x.kind != y.kind
    ensures Find(UpdatedAll(conditions, [x, y]), k) ==
      if k == y.kind then Some(y) else if k == x.kind then Some(x) else Find(conditions, k)
  {
    var first := Updated(conditions, x);
    assert [x, y][1..] == [y] && [y][1..] == [];
    assert UpdatedAll(conditions, [x, y]) == UpdatedAll(first, [y]);
    assert UpdatedAll(first, [y]) == UpdatedAll(Updated(first, y), []);
    UpdatedFind(conditions, x, k);
    UpdatedFind(first, y, k);
  }

  // Two news of different types.
  lemma TwoNews(s: State, claim: string, x: Condition, y: Condition)
    requires s.faults == [] && claim in s.world.claims && x.kind != y.kind
    ensures var p := PatchStatus(s, claim, [x, y]); var cs := p.s.world.claims[claim].conditions;
      && p.ok && OnlyStatus(s.world, p.s.world, claim, {x.kind, y.kind})
      && Find(cs, x.kind) == Some(x) && Find(cs, y.kind) == Some(y) && p.s.faults == []
  {
    var cs := s.world.claims[claim].conditions;
    forall k {
      TwoPatched(cs, x, y, k);
    }
  }
}
