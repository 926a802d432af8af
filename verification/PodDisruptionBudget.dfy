/** The life of the PodDisruptionBudget that protects the kernel module build during an upgrade:
    created before the version changes, labelled once a build is seen, deleted when the build is
    over.  Specification functions, the controller proved against them, and all runs. */
module PodDisruptionBudget {
  import opened Conditions

  const DELETE_LABEL := "fusion.storage.openshift.io/delete-me"
  const MINUTE := 60
  const MODULE_BUILD_TIME_LIMIT := 30 * MINUTE

  datatype BudgetSpec = BudgetSpec(minAvailable: int, podsWithLabel: string)

  datatype Budget = Budget(spec: BudgetSpec, labels: map<string, string>, created: int)

  /** The budget, the number of builds and the version written in the FusionAccess spec. */
  datatype World = World(budget: Option<Budget>, builds: nat, version: string)

  datatype Action =
    | SawBuilds(some: bool)
    | CreatedBudget
    | UpdatedBudget
    | LabelledBudget
    | DeletedBudget
    | WroteVersion(version: string)

  datatype Entry = Entry(before: World, at: int, action: Action)

  /** `faults` says call by call which API calls fail, `now` is the clock in seconds. */
  datatype State = State(world: World, faults: seq<bool>, log: seq<Entry>, now: int)

  datatype Outcome = Proceed | Stop | Failed

  datatype Step = Step(s: State, out: Outcome)

  // ---- API calls ----

  predicate Fails(s: State) {
    s.faults != [] && s.faults[0]
  }

  function Next(s: State): State {
    if s.faults == [] then s else s.(faults := s.faults[1..])
  }

  // A call that succeeds: the log entry and the new world.
  function Done(s: State, a: Action, w: World): State {
    Next(s).(log := s.log + [Entry(s.world, s.now, a)], world := w)
  }

  // ---- the stages ----

  const DESIRED := BudgetSpec(1, "openshift.io/build.name")

  // createPodDisruptionBudget: get, then create or, if the spec differs, update.
  function CreateOrUpdate(s: State): Step {
    if Fails(s) then Step(Next(s), Failed)
    else
      var s1 := Next(s);
      match s.world.budget
      case None =>
        if Fails(s1) then Step(Next(s1), Failed)
        else Step(Done(s1, CreatedBudget, s.world.(budget := Some(Budget(DESIRED, map[], s.now)))), Proceed)
      case Some(b) =>
        if b.spec == DESIRED then Step(s1, Proceed)
        else if Fails(s1) then Step(Next(s1), Failed)
        else Step(Done(s1, UpdatedBudget, s.world.(budget := Some(b.(spec := DESIRED)))), Proceed)
  }

  function UpdateVersion(s: State, version: string): Step {
    var c := CreateOrUpdate(s);
    if c.out == Failed then c
    else if Fails(c.s) then Step(Next(c.s), Failed)
    else Step(Done(c.s, WroteVersion(version), c.s.world.(version := version)), Stop)
  }

  predicate Overdue(b: Budget, now: int) {
    b.created < now - MODULE_BUILD_TIME_LIMIT
  }

  // managePodDisruptionBudget after the budget was fetched and the builds were listed.
  function Decide(s: State, b: Budget): Step {
    if s.world.builds > 0 then
      if DELETE_LABEL in b.labels then Step(s, Proceed)
      else if Fails(s) then Step(Next(s), Failed)
      else Step(Done(s, LabelledBudget, s.world.(budget := Some(b.(labels := b.labels[DELETE_LABEL := ""])))), Stop)
    else if DELETE_LABEL in b.labels || Overdue(b, s.now) then
      if Fails(s) then Step(Next(s), Failed)
      else Step(Done(s, DeletedBudget, s.world.(budget := None)), Proceed)
    else Step(s, Proceed)
  }

  function Manage(s: State): Step {
    if Fails(s) then Step(Next(s), Failed)
    else
      match s.world.budget
      case None => Step(Next(s), Proceed)
      case Some(b) =>
        var s1 := Next(s);
        if Fails(s1) then Step(Next(s1), Failed)
        else Decide(Done(s1, SawBuilds(s.world.builds > 0), s.world), b)
  }

  // The part of a reconcile that concerns the budget: either the version is raised, or the
  // manifest is applied and the budget managed.
  function Reconcile(s: State, target: string, applies: bool): Step {
    if target != "" && s.world.version != target then UpdateVersion(s, target)
    else if !applies then Step(s, Failed)
    else Manage(s)
  }

  // ---- the controller ----

  class FusionAccessReconciler {
    var budget: Option<Budget>
    var builds: nat
    var version: string
    var faults: seq<bool>
    var now: int
    ghost var log: seq<Entry>

    ghost function Objects(): World
      reads this
    {
      World(budget, builds, version)
    }

    ghost function View(): State
      reads this
    {
      State(Objects(), faults, log, now)
    }

    constructor (w: World, faults: seq<bool>, now: int)
      ensures View() == State(w, faults, [], now)
    {
      budget, builds, version := w.budget, w.builds, w.version;
      this.faults, this.now, log := faults, now, [];
    }

    method Request() returns (fails: bool)
      modifies this
      ensures fails == Fails(old(View()))
      ensures View() == Next(old(View()))
    {
      fails := false;
      if faults != [] {
        fails := faults[0];
        faults := faults[1..];
      }
    }

    ghost method Record(a: Action)
      modifies this`log
      ensures log == old(log) + [Entry(Objects(), now, a)]
    {
      log := log + [Entry(Objects(), now, a)];
    }

    method CreatePodDisruptionBudget() returns (out: Outcome)
      modifies this
      ensures Step(View(), out) == CreateOrUpdate(old(View()))
    {
      var failed := Request();
      if failed {
        return Failed;
      }
      if budget.None? {
        failed := Request();
        if failed {
          return Failed;
        }
        Record(CreatedBudget);
        budget := Some(Budget(DESIRED, map[], now));
      } else if budget.value.spec != DESIRED {
        failed := Request();
        if failed {
          return Failed;
        }
        Record(UpdatedBudget);
        budget := Some(budget.value.(spec := DESIRED));
      }
      return Proceed;
    }

    method UpdateStorageScaleVersion(target: string) returns (out: Outcome)
      modifies this
      ensures Step(View(), out) == UpdateVersion(old(View()), target)
    {
      out := CreatePodDisruptionBudget();
      if out == Failed {
        return;
      }
      var failed := Request();
      if failed {
        return Failed;
      }
      Record(WroteVersion(target));
      version := target;
      return Stop;
    }

    method HaveBuilds() returns (failed: bool, some: bool)
      modifies this
      ensures failed == Fails(old(View())) && some == (old(builds) > 0)
      ensures View() == if failed then Next(old(View())) else Done(old(View()), SawBuilds(some), old(Objects()))
    {
      failed := Request();
      some := builds > 0;
      if !failed {
        Record(SawBuilds(some));
      }
    }

    method ManagePodDisruptionBudget() returns (out: Outcome)
      modifies this
      ensures Step(View(), out) == Manage(old(View()))
      ensures old(faults) == [] && old(budget).Some? && old(builds) > 0 ==>
        && budget.Some? && DELETE_LABEL in budget.value.labels
        && budget.value == old(budget).value.(labels := budget.value.labels)
      ensures old(faults) == [] && old(budget).Some? && old(builds) == 0 ==>
        budget == if DELETE_LABEL in old(budget).value.labels || Overdue(old(budget).value, now) then None else old(budget)
    {
      var failed := Request();
      if failed {
        return Failed;
      }
      if budget.None? {
        return Proceed;
      }
      var pdb := budget.value;
      var some;
      failed, some := HaveBuilds();
      if failed {
        return Failed;
      }
      if some {
        if DELETE_LABEL !in pdb.labels {
          failed := Request();
          if failed {
            return Failed;
          }
          Record(LabelledBudget);
          budget := Some(pdb.(labels := pdb.labels[DELETE_LABEL := ""]));
          return Stop;
        }
      } else if DELETE_LABEL in pdb.labels || Overdue(pdb, now) {
        failed := Request();
        if failed {
          return Failed;
        }
        Record(DeletedBudget);
        budget := None;
      }
      return Proceed;
    }

    method ReconcileBudget(target: string, applies: bool) returns (out: Outcome)
      modifies this
      ensures Step(View(), out) == Reconcile(old(View()), target, applies)
    {
      if target != "" && version != target {
        out := UpdateStorageScaleVersion(target);
      } else if !applies {
        out := Failed;
      } else {
        out := ManagePodDisruptionBudget();
      }
    }
  }

  // ---- what every write has to respect ----

  // A build was observed since the budget was last created.
  predicate BuildSeen(log: seq<Entry>) {
    log != [] &&
    match log[|log| - 1].action
    case SawBuilds(true) => true
    case CreatedBudget => false
    case _ => BuildSeen(log[..|log| - 1])
  }

  // In the same reconcile the builds were listed just before, and there were none.
  predicate JustSawNone(seen: seq<Entry>, e: Entry) {
    seen != [] && seen[|seen| - 1] == Entry(e.before, e.at, SawBuilds(false)) && e.before.builds == 0
  }

  // What an entry may be, given the entries before it.
  predicate Proper(seen: seq<Entry>, e: Entry) {
    match e.action
    case DeletedBudget =>
      e.before.budget.Some? && JustSawNone(seen, e) && (BuildSeen(seen) || Overdue(e.before.budget.value, e.at))
    case LabelledBudget => BuildSeen(seen)
    case CreatedBudget => e.before.budget.None?
    case WroteVersion(_) => e.before.budget.Some? && e.before.budget.value.spec == DESIRED
    case _ => true
  }

  predicate AllProper(log: seq<Entry>) {
    forall i :: 0 <= i < |log| ==> Proper(log[..i], log[i])
  }

  // The delete label stands for an observed build.
  predicate Marked(s: State) {
    s.world.budget.Some? && DELETE_LABEL in s.world.budget.value.labels ==> BuildSeen(s.log)
  }

  predicate Inv(s: State) {
    AllProper(s.log) && Marked(s)
  }

  lemma OneMore(log: seq<Entry>, e: Entry)
    requires AllProper(log) && Proper(log, e)
    ensures AllProper(log + [e])
    ensures BuildSeen(log + [e]) ==
      match e.action case SawBuilds(true) => true case CreatedBudget => false case _ => BuildSeen(log)
  {
    var l := log + [e];
    assert l[..|log|] == log && l[|l| - 1] == e;
    forall i | 0 <= i < |l| ensures Proper(l[..i], l[i]) {
      if i < |log| {
        assert l[..i] == log[..i] && l[i] == log[i];
      }
    }
  }

  lemma CreationKeepsInv(s: State)
    requires Inv(s)
    ensures var c := CreateOrUpdate(s);
      Inv(c.s) && (c.out == Proceed ==> c.s.world.budget.Some? && c.s.world.budget.value.spec == DESIRED)
  {
    if s.world.budget.None? {
      OneMore(s.log, Entry(s.world, s.now, CreatedBudget));
    } else {
      OneMore(s.log, Entry(s.world, s.now, UpdatedBudget));
    }
  }

  lemma UpdateKeepsInv(s: State, version: string)
    requires Inv(s)
    ensures Inv(UpdateVersion(s, version).s)
  {
    CreationKeepsInv(s);
    var c := CreateOrUpdate(s);
    if c.out == Proceed {
      OneMore(c.s.log, Entry(c.s.world, c.s.now, WroteVersion(version)));
    }
  }

  lemma SawKeepsInv(s: State, some: bool)
    requires Inv(s)
    ensures Inv(Done(s, SawBuilds(some), s.world))
    ensures some ==> BuildSeen(Done(s, SawBuilds(some), s.world).log)
  {
    OneMore(s.log, Entry(s.world, s.now, SawBuilds(some)));
  }

  lemma DecideKeepsInv(s: State, b: Budget)
    requires Inv(s) && s.world.budget == Some(b)
    requires s.world.builds > 0 ==> BuildSeen(s.log)
    requires s.world.builds == 0 ==> JustSawNone(s.log, Entry(s.world, s.now, DeletedBudget))
    ensures Inv(Decide(s, b).s)
  {
    if s.world.builds > 0 {
      OneMore(s.log, Entry(s.world, s.now, LabelledBudget));
    } else if DELETE_LABEL in b.labels || Overdue(b, s.now) {
      OneMore(s.log, Entry(s.world, s.now, DeletedBudget));
    }
  }

  lemma ManageKeepsInv(s: State)
    requires Inv(s)
    ensures Inv(Manage(s).s)
  {
    if !Fails(s) && s.world.budget.Some? && !Fails(Next(s)) {
      SawKeepsInv(Next(s), s.world.builds > 0);
      DecideKeepsInv(Done(Next(s), SawBuilds(s.world.builds > 0), s.world), s.world.budget.value);
    }
  }

  // ---- all runs ----

  /** A reconcile, or a step of everybody else. */
  datatype Move =
    | Reconciling(target: string, applies: bool, faults: seq<bool>, now: int)
    | Other(next: World)

  // Builds and the version change freely; the budget may vanish but is not edited by others.
  predicate Enabled(w: World, mv: Move) {
    mv.Other? ==> mv.next.budget == w.budget || mv.next.budget == None
  }

  function After(w: World, log: seq<Entry>, mv: Move): (World, seq<Entry>) {
    match mv
    case Reconciling(target, applies, faults, now) =>
      var s := Reconcile(State(w, faults, log, now), target, applies).s;
      (s.world, s.log)
    case Other(next) => (next, log)
  }

  predicate Run(w: World, log: seq<Entry>, moves: seq<Move>)
    decreases |moves|
  {
    moves == [] ||
    (Enabled(w, moves[0]) && var t := After(w, log, moves[0]); Run(t.0, t.1, moves[1..]))
  }

  function End(w: World, log: seq<Entry>, moves: seq<Move>): (World, seq<Entry>)
    decreases |moves|
  {
    if moves == [] then (w, log) else var t := After(w, log, moves[0]); End(t.0, t.1, moves[1..])
  }

  lemma MoveKeepsInv(w: World, log: seq<Entry>, mv: Move)
    requires Inv(State(w, [], log, 0)) && Enabled(w, mv)
    ensures var t := After(w, log, mv); Inv(State(t.0, [], t.1, 0))
  {
    if mv.Reconciling? {
      var s := State(w, mv.faults, log, mv.now);
      UpdateKeepsInv(s, mv.target);
      ManageKeepsInv(s);
    }
  }

  lemma {:induction false} RunKeepsInv(w: World, log: seq<Entry>, moves: seq<Move>)
    requires Inv(State(w, [], log, 0)) && Run(w, log, moves)
    ensures var t := End(w, log, moves); Inv(State(t.0, [], t.1, 0))
    decreases |moves|
  {
    if moves != [] {
      MoveKeepsInv(w, log, moves[0]);
      var t := After(w, log, moves[0]);
      RunKeepsInv(t.0, t.1, moves[1..]);
    }
  }

  // From a start without a budget: the delete label implies that a build was observed since the
  // budget was created; the controller deletes only when it just saw no build, and only if a build
  // was observed since the creation or the budget is older than the limit; and the version is only
  // raised while a budget protects the build.
  lemma LifeCycle(w: World, moves: seq<Move>, i: nat)
    requires w.budget == None && Run(w, [], moves)
    ensures var t := End(w, [], moves);
      && (t.0.budget.Some? && DELETE_LABEL in t.0.budget.value.labels ==> BuildSeen(t.1))
      && (i < |t.1| ==> Proper(t.1[..i], t.1[i]))
  {
    RunKeepsInv(w, [], moves);
  }

  // What BuildSeen means: some entry saw a build, and no later one created the budget.
  lemma {:induction false} BuildSeenMeaning(log: seq<Entry>)
    ensures BuildSeen(log) <==>
      exists i :: 0 <= i < |log| && log[i].action == SawBuilds(true)
                  && forall j :: i < j < |log| ==> log[j].action != CreatedBudget
  {
    if log != [] {
      var last, rest := log[|log| - 1].action, log[..|log| - 1];
      BuildSeenMeaning(rest);
      if last == SawBuilds(true) {
        assert log[|log| - 1].action == SawBuilds(true);
      } else if last != CreatedBudget && BuildSeen(rest) {
        var i :| 0 <= i < |rest| && rest[i].action == SawBuilds(true)
                 && forall j :: i < j < |rest| ==> rest[j].action != CreatedBudget;
        assert log[i].action == SawBuilds(true);
        assert forall j :: i < j < |log| && j < |rest| ==> log[j] == rest[j];
      } else if last != CreatedBudget {
        forall i | 0 <= i < |log| && log[i].action == SawBuilds(true)
          ensures exists j :: i < j < |log| && log[j].action == CreatedBudget
        {
          assert i < |rest| && rest[i].action == SawBuilds(true);
          var j :| i < j < |rest| && rest[j].action == CreatedBudget;
          assert log[j].action == CreatedBudget;
        }
      }
    }
  }

  // An upgrade keeps the label and the age of a budget that is already there, so an undisturbed
  // reconcile right after it, before the new build starts, deletes that budget exactly if it is
  // labelled or overdue.
  lemma UpgradeKeepsBudget(s: State, version: string, now: int)
    requires s.faults == [] && s.world.budget.Some? && s.world.builds == 0
    ensures var u := UpdateVersion(s, version).s; var b := s.world.budget.value;
      && u.world.budget == Some(b.(spec := DESIRED))
      && (Manage(u.(now := now)).s.world.budget == None <==> DELETE_LABEL in b.labels || Overdue(b, now))
  {
  }

  // ---- what an undisturbed reconcile leaves ----

  // The version is as wanted: the reconcile manages the budget.
  predicate Managing(w: World, target: string) {
    target == "" || w.version == target
  }

  // With builds running, the budget is kept and labelled; without, it goes if it is labelled or older than
  // thirty minutes, and stays as it is otherwise.
  lemma ManagedBudget(w: World, log: seq<Entry>, target: string, now: int)
    requires Managing(w, target)
    ensures var w' := Reconcile(State(w, [], log, now), target, true).s.world;
      && w' == w.(budget := w'.budget)
      && match w.budget
         case None => w'.budget == None
         case Some(b) =>
           var labelled := "fusion.storage.openshift.io/delete-me" in b.labels;
           if w.builds > 0 then
             && w'.budget.Some? && w'.budget.value == b.(labels := w'.budget.value.labels)
             && "fusion.storage.openshift.io/delete-me" in w'.budget.value.labels
             && forall l :: l in b.labels ==> l in w'.budget.value.labels && w'.budget.value.labels[l] == b.labels[l]
           else w'.budget == if labelled || b.created + 1800 < now then None else Some(b)
    ensures Reconcile(State(w, [], log, now), target, true).out ==
      if w.builds > 0 && w.budget.Some? && "fusion.storage.openshift.io/delete-me" !in w.budget.value.labels then Stop else Proceed
    ensures Reconcile(State(w, [], log, now), target, false).out == Failed
    ensures Reconcile(State(w, [], log, now), target, false).s.world == w
  {
  }

  // With another version wanted, the version is written and a budget that allows no build pod to be
  // evicted is there; one that was there keeps labels and age.
  lemma UpgradedBudget(w: World, log: seq<Entry>, target: string, applies: bool, now: int)
    requires !Managing(w, target)
    ensures var w' := Reconcile(State(w, [], log, now), target, applies).s.world;
      && w'.version == target && w'.builds == w.builds
      && w'.budget == Some(Budget(BudgetSpec(1, "openshift.io/build.name"),
           if w.budget.Some? then w.budget.value.labels else map[],
           if w.budget.Some? then w.budget.value.created else now))
    ensures Reconcile(State(w, [], log, now), target, applies).out == Stop
  {
  }

  // Failed calls are never hidden: a reconcile that does not fail has done what an undisturbed one does.
  lemma FailuresShow(s: State, target: string, applies: bool)
    requires Reconcile(s, target, applies).out != Failed
    ensures var calm := Reconcile(s.(faults := []), target, applies);
      && Reconcile(s, target, applies).out == calm.out
      && Reconcile(s, target, applies).s.world == calm.s.world && Reconcile(s, target, applies).s.log == calm.s.log
  {
  }

  // There is a budget in every world of the run.
  predicate BudgetStays(w: World, log: seq<Entry>, moves: seq<Move>)
    decreases |moves|
  {
    w.budget.Some? && (moves == [] || var t := After(w, log, moves[0]); BudgetStays(t.0, t.1, moves[1..]))
  }

  lemma MoveKeepsLabel(w: World, log: seq<Entry>, mv: Move)
    requires Enabled(w, mv) && w.budget.Some? && "fusion.storage.openshift.io/delete-me" in w.budget.value.labels
    ensures var b := After(w, log, mv).0.budget;
      b.Some? ==> "fusion.storage.openshift.io/delete-me" in b.value.labels && b.value.created == w.budget.value.created
  {
  }

  // A label once set stays for as long as the budget does, whatever calls fail.
  lemma {:induction false} LabelStays(w: World, log: seq<Entry>, moves: seq<Move>)
    requires Run(w, log, moves) && BudgetStays(w, log, moves)
    requires "fusion.storage.openshift.io/delete-me" in w.budget.value.labels
    ensures var b := End(w, log, moves).0.budget;
      b.Some? && "fusion.storage.openshift.io/delete-me" in b.value.labels && b.value.created == w.budget.value.created
    decreases |moves|
  {
    if moves != [] {
      MoveKeepsLabel(w, log, moves[0]);
      var t := After(w, log, moves[0]);
      LabelStays(t.0, t.1, moves[1..]);
    }
  }

  // Once an undisturbed reconcile has seen a build, the budget is marked for as long as it exists, and the
  // next undisturbed reconcile that finds no build removes it, however young it is.
  lemma BuildEndsBudget(w: World, log: seq<Entry>, target: string, now: int, moves: seq<Move>, target': string, now': int)
    requires w.budget.Some? && w.builds > 0 && Managing(w, target)
    requires var t := After(w, log, Reconciling(target, true, [], now)); Run(t.0, t.1, moves) && BudgetStays(t.0, t.1, moves)
    ensures var t := After(w, log, Reconciling(target, true, [], now)); var u := End(t.0, t.1, moves);
      && u.0.budget.Some? && "fusion.storage.openshift.io/delete-me" in u.0.budget.value.labels
      && u.0.budget.value.created == w.budget.value.created
      && (u.0.builds == 0 && Managing(u.0, target') ==>
            After(u.0, u.1, Reconciling(target', true, [], now')).0.budget == None)
  {
    ManagedBudget(w, log, target, now);
    var t := After(w, log, Reconciling(target, true, [], now));
    LabelStays(t.0, t.1, moves);
    var u := End(t.0, t.1, moves);
    if u.0.builds == 0 && Managing(u.0, target') {
      ManagedBudget(u.0, u.1, target', now');
    }
  }
}
