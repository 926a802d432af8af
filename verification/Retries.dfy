/** The retries of a blocked deletion, as they occur in runs: while the blocking condition stays as
    it is, reconciles that come no earlier than they were asked to follow the back-off schedule. */
module Retries {
  import opened Conditions
  import opened Cluster
  import opened ReconcilerSpec
  import opened WriteContract
  import opened Runs
  import Backoff

  // ---- what blocks a deletion ----

  datatype Blocker = Blocker(reason: Reason, message: Message)

  // Volumes come first, then the missing label.
  function BlockerOf(w: World, n: string): Option<Blocker>
    requires n in w.claims
  {
    var cs, owned := w.claims[n].conditions, OwnedFilesystems(w.filesystems, n);
    if IsTrue(cs, StorageClassCreated) && Blockers(w.volumes, n) != [] then
      Some(Blocker(StorageClassInUse, InUseMessage(Blockers(w.volumes, n))))
    else if IsTrue(cs, FileSystemCreated) && |owned| == 1 && AllowDelete !in owned[0].labels then
      Some(Blocker(FileSystemLabelNotPresent, LabelMissing(owned[0].name)))
    else None
  }

  // The claim's deletion was announced and is blocked.
  predicate Blocked(w: World, n: string) {
    n in w.claims && TearingDown(w.claims[n]) && HasReason(w.claims[n].conditions, Ready, DeletionRequested)
    && BlockerOf(w, n).Some?
  }

  function BlockCondition(b: Blocker, now: int): Condition {
    Condition(DeletionBlocked, True, b.reason, b.message, now)
  }

  // The reconcile got as far as the blocker, with no call failing, and asks to be called again later.
  predicate Attempt(w: World, mv: Move, n: string) {
    mv.Reconciling? && mv.claim == n && Blocked(w, n) && Reconcile(Start(w, mv), n).out.Delayed?
  }

  lemma BlockOutcome(s: State, c: Claim, b: Blocker)
    requires c.name in s.world.claims && s.world.claims[c.name].conditions == c.conditions
    requires Block(s, c, b.reason, b.message).out.Delayed?
    ensures var r := Block(s, c, b.reason, b.message);
      && r.out == Delayed(Backoff.DeletionDelay(c.conditions, b.reason, s.now))
      && c.name in r.s.world.claims
      && Find(r.s.world.claims[c.name].conditions, DeletionBlocked) ==
         if Settled(c, DeletionBlocked, True, b.reason, b.message) then Find(c.conditions, DeletionBlocked)
         else Some(BlockCondition(b, s.now))
  {
    var x := BlockCondition(b, s.now);
    if !Settled(c, DeletionBlocked, True, b.reason, b.message) {
      assert UpdatedAll(c.conditions, [x]) == Updated(c.conditions, x) by {
        assert [x][1..] == [];
        assert UpdatedAll(Updated(c.conditions, x), []) == Updated(c.conditions, x);
      }
      UpdatedFind(c.conditions, x, DeletionBlocked);
    }
  }

  // Where a blocked deletion ends when no call before the blocker fails.
  lemma ReachesBlock(s: State, c: Claim, b: Blocker) returns (t: State)
    requires TearingDown(c) && HasReason(c.conditions, Ready, DeletionRequested)
    requires c.name in s.world.claims && s.world.claims[c.name] == c && BlockerOf(s.world, c.name) == Some(b)
    requires HandleDeletion(s, c).out.Delayed?
    ensures HandleDeletion(s, c) == Block(t, c, b.reason, b.message) && t.world == s.world && t.now == s.now
  {
    assert MarkDeletion(s, c) == Step(s, Continue);
    var u := CheckClassUsage(s, c);
    if IsTrue(c.conditions, StorageClassCreated) && Blockers(s.world.volumes, c.name) != [] {
      t := Next(s);
      assert u == Block(t, c, b.reason, b.message);
      assert HandleDeletion(s, c) == u;
    } else {
      assert u.out == Continue;
      t := Next(u.s);
      assert CheckDeletionLabel(u.s, c) == Block(t, c, b.reason, b.message);
      assert HandleDeletion(s, c) == CheckDeletionLabel(u.s, c);
    }
  }

  // An attempt asks for the back-off delay and records the blocker, unless it is recorded already.
  lemma AttemptOutcome(w: World, mv: Move, n: string)
    requires WellFormed(w) && Attempt(w, mv, n)
    ensures var c, b, r := w.claims[n], BlockerOf(w, n).value, Reconcile(Start(w, mv), n);
      && r.out == Delayed(Backoff.DeletionDelay(c.conditions, b.reason, mv.now))
      && n in r.s.world.claims
      && Find(r.s.world.claims[n].conditions, DeletionBlocked) ==
         if Settled(c, DeletionBlocked, True, b.reason, b.message) then Find(c.conditions, DeletionBlocked)
         else Some(BlockCondition(b, mv.now))
  {
    var s, c, b := Start(w, mv), w.claims[n], BlockerOf(w, n).value;
    DeletionNeverIdle(Next(s), c);
    assert Reconcile(s, n) == HandleDeletion(Next(s), c);
    var t := ReachesBlock(Next(s), c, b);
    BlockOutcome(t, c, b);
  }

  // An undisturbed reconcile of a blocked deletion is an attempt.
  lemma UndisturbedAttempt(w: World, n: string, pick: nat, now: int)
    requires WellFormed(w) && Blocked(w, n)
    ensures Attempt(w, Reconciling(n, [], pick, now), n)
  {
    var s, c := Start(w, Reconciling(n, [], pick, now)), w.claims[n];
    DeletionNeverIdle(s, c);
    assert Reconcile(s, n) == HandleDeletion(s, c);
    assert MarkDeletion(s, c) == Step(s, Continue);
    if Blockers(w.volumes, n) == [] || !IsTrue(c.conditions, StorageClassCreated) {
      assert CheckClassUsage(s, c) == Step(s, Continue);
    }
  }

  // ---- along a run ----

  // In every world of the run the claim's blocking condition is x.
  predicate BlockerStays(w: World, moves: seq<Move>, n: string, x: Condition)
    decreases |moves|
  {
    n in w.claims && Find(w.claims[n].conditions, DeletionBlocked) == Some(x)
    && (moves == [] || BlockerStays(StepWorld(w, moves[0]), moves[1..], n, x))
  }

  // The time for which the next attempt is asked, if so far that was `due`.
  function DueAfter(w: World, mv: Move, n: string, due: int): int {
    if Attempt(w, mv, n) then mv.now + Reconcile(Start(w, mv), n).out.after else due
  }

  // No attempt comes earlier than the one before it asked for, the first not before `due`.
  predicate Punctual(w: World, moves: seq<Move>, n: string, due: int)
    decreases |moves|
  {
    moves == [] ||
    ((Attempt(w, moves[0], n) ==> moves[0].now >= due)
     && Punctual(StepWorld(w, moves[0]), moves[1..], n, DueAfter(w, moves[0], n, due)))
  }

  // The times of the attempts, counted from `since`.
  function AttemptTimes(w: World, moves: seq<Move>, n: string, since: int): seq<int>
    decreases |moves|
  {
    if moves == [] then []
    else
      (if Attempt(w, moves[0], n) then [moves[0].now - since] else [])
      + AttemptTimes(StepWorld(w, moves[0]), moves[1..], n, since)
  }

  // While the condition stays, each attempt is delayed by the time for which it has been in place.
  lemma DelayOfAttempt(w: World, mv: Move, n: string, x: Condition)
    requires WellFormed(w) && Attempt(w, mv, n) && x.reason != MigrationComplete
    requires Find(w.claims[n].conditions, DeletionBlocked) == Some(x)
    requires n in StepWorld(w, mv).claims && Find(StepWorld(w, mv).claims[n].conditions, DeletionBlocked) == Some(x)
    ensures Reconcile(Start(w, mv), n).out.after == Backoff.Delay(mv.now - x.since)
  {
    AttemptOutcome(w, mv, n);
  }

  // Each time is no earlier than asked for at the time before it, the first than asked for at `last`.
  predicate Chain(last: int, ts: seq<int>)
    decreases |ts|
  {
    ts == [] || (ts[0] >= last + Backoff.Delay(last) && Chain(ts[0], ts[1..]))
  }

  lemma {:induction false} ChainIsSchedule(last: int, ts: seq<int>)
    requires last >= 0 && Chain(last, ts)
    ensures Backoff.Schedule([last] + ts)
    decreases |ts|
  {
    if ts != [] {
      ChainIsSchedule(ts[0], ts[1..]);
      var rest := [ts[0]] + ts[1..];
      assert rest == ts;
      var all := [last] + ts;
      forall i, j | 0 <= i < j < |all| && j == i + 1 ensures all[j] >= all[i] + Backoff.Delay(all[i]) {
        if i > 0 {
          assert ts[i] >= ts[i - 1] + Backoff.Delay(ts[i - 1]);
        }
      }
    }
  }

  lemma ChainCons(last: int, now: int, ts: seq<int>)
    requires now >= last + Backoff.Delay(last) && Chain(now, ts)
    ensures Chain(last, [now] + ts)
  {
    assert ([now] + ts)[1..] == ts;
  }

  lemma DueIsDelayed(w: World, mv: Move, n: string, x: Condition, due: int)
    requires WellFormed(w) && Attempt(w, mv, n) && x.reason != MigrationComplete
    requires Find(w.claims[n].conditions, DeletionBlocked) == Some(x)
    requires n in StepWorld(w, mv).claims && Find(StepWorld(w, mv).claims[n].conditions, DeletionBlocked) == Some(x)
    ensures DueAfter(w, mv, n, due) == mv.now + Backoff.Delay(mv.now - x.since)
  {
    DelayOfAttempt(w, mv, n, x);
  }

  function LastAfter(w: World, mv: Move, n: string, since: int, last: int): int {
    if Attempt(w, mv, n) then mv.now - since else last
  }

  // What the first step of the run contributes.
  lemma FirstTime(w: World, moves: seq<Move>, n: string, x: Condition, last: int, due: int)
    requires WellFormed(w) && moves != [] && BlockerStays(w, moves, n, x) && x.reason != MigrationComplete
    requires last >= 0 && due == x.since + last + Backoff.Delay(last) && Punctual(w, moves, n, due)
    ensures var last' := LastAfter(w, moves[0], n, x.since, last);
      && last' >= 0 && DueAfter(w, moves[0], n, due) == x.since + last' + Backoff.Delay(last')
      && (Attempt(w, moves[0], n) ==> last' >= last + Backoff.Delay(last))
  {
    if Attempt(w, moves[0], n) {
      assert BlockerStays(StepWorld(w, moves[0]), moves[1..], n, x);
      DueIsDelayed(w, moves[0], n, x, due);
    }
  }

  lemma RestOfRun(w: World, moves: seq<Move>, n: string, x: Condition, due: int)
    requires WellFormed(w) && moves != [] && Run(w, moves) && BlockerStays(w, moves, n, x) && Punctual(w, moves, n, due)
    ensures var next := StepWorld(w, moves[0]);
      && WellFormed(next) && Run(next, moves[1..]) && BlockerStays(next, moves[1..], n, x)
      && Punctual(next, moves[1..], n, DueAfter(w, moves[0], n, due))
  {
    StepKeepsForm(w, moves[0]);
  }

  lemma TimesUnroll(w: World, moves: seq<Move>, n: string, since: int)
    requires moves != []
    ensures var rest := AttemptTimes(StepWorld(w, moves[0]), moves[1..], n, since);
      AttemptTimes(w, moves, n, since) == if Attempt(w, moves[0], n) then [moves[0].now - since] + rest else rest
  {
  }

  lemma {:induction false} TimesAreSchedule(w: World, moves: seq<Move>, n: string, x: Condition, last: int, due: int)
    requires WellFormed(w) && Run(w, moves) && BlockerStays(w, moves, n, x) && x.reason != MigrationComplete
    requires last >= 0 && due == x.since + last + Backoff.Delay(last) && Punctual(w, moves, n, due)
    ensures Chain(last, AttemptTimes(w, moves, n, x.since))
    decreases |moves|
  {
    if moves != [] {
      var next, last' := StepWorld(w, moves[0]), LastAfter(w, moves[0], n, x.since, last);
      FirstTime(w, moves, n, x, last, due);
      RestOfRun(w, moves, n, x, due);
      TimesAreSchedule(next, moves[1..], n, x, last', DueAfter(w, moves[0], n, due));
      TimesUnroll(w, moves, n, x.since);
      if Attempt(w, moves[0], n) {
        ChainCons(last, last', AttemptTimes(next, moves[1..], n, x.since));
      }
    }
  }

  // ---- the back-off of a blocked deletion ----

  // The first attempt at a new blocker records it and asks for the initial delay.
  lemma FirstAttempt(w: World, mv: Move, n: string)
    requires WellFormed(w) && Attempt(w, mv, n)
    requires !HasReason(w.claims[n].conditions, DeletionBlocked, BlockerOf(w, n).value.reason)
    requires !HasReason(w.claims[n].conditions, DeletionBlocked, MigrationComplete)
    ensures Reconcile(Start(w, mv), n).out == Delayed(Backoff.INITIAL_DELAY)
    ensures n in StepWorld(w, mv).claims
    ensures Find(StepWorld(w, mv).claims[n].conditions, DeletionBlocked) == Some(BlockCondition(BlockerOf(w, n).value, mv.now))
  {
    AttemptOutcome(w, mv, n);
  }

  lemma BlockerReason(w: World, n: string)
    requires n in w.claims && BlockerOf(w, n).Some?
    ensures BlockerOf(w, n).value.reason != MigrationComplete
  {
  }

  lemma RetriesFollow(w: World, mv: Move, moves: seq<Move>, n: string)
    requires WellFormed(w) && Attempt(w, mv, n) && Run(StepWorld(w, mv), moves)
    requires !HasReason(w.claims[n].conditions, DeletionBlocked, BlockerOf(w, n).value.reason)
    requires !HasReason(w.claims[n].conditions, DeletionBlocked, MigrationComplete)
    requires BlockerStays(StepWorld(w, mv), moves, n, BlockCondition(BlockerOf(w, n).value, mv.now))
    requires Punctual(StepWorld(w, mv), moves, n, mv.now + Backoff.INITIAL_DELAY)
    ensures Chain(0, AttemptTimes(StepWorld(w, mv), moves, n, mv.now))
  {
    StepKeepsForm(w, mv);
    BlockerReason(w, n);
    TimesAreSchedule(StepWorld(w, mv), moves, n, BlockCondition(BlockerOf(w, n).value, mv.now), 0,
      mv.now + Backoff.INITIAL_DELAY);
  }

  // From the first attempt at a new blocker on, and for as long as the recorded condition stays as
  // it is: in every run in which no attempt comes earlier than asked for, whatever else happens,
  // the times of the attempts form a schedule, so the k-th retry is no earlier than the k-th of an
  // on-time one and at most 5 + T / 10min retries happen in the first T.
  lemma BlockedDeletionBacksOff(w: World, mv: Move, moves: seq<Move>, n: string, k: nat)
    requires WellFormed(w) && Attempt(w, mv, n) && Run(StepWorld(w, mv), moves)
    requires !HasReason(w.claims[n].conditions, DeletionBlocked, BlockerOf(w, n).value.reason)
    requires !HasReason(w.claims[n].conditions, DeletionBlocked, MigrationComplete)
    requires BlockerStays(StepWorld(w, mv), moves, n, BlockCondition(BlockerOf(w, n).value, mv.now))
    requires Punctual(StepWorld(w, mv), moves, n, mv.now + Backoff.INITIAL_DELAY)
    ensures var ts := AttemptTimes(StepWorld(w, mv), moves, n, mv.now);
      && Backoff.Schedule([0] + ts)
      && (k < |ts| ==> ts[k] >= Backoff.OnTime(k + 1) && k + 1 <= 5 + ts[k] / Backoff.MAX_DELAY)
  {
    RetriesFollow(w, mv, moves, n);
    ChainIsSchedule(0, AttemptTimes(StepWorld(w, mv), moves, n, mv.now));
    ScheduleBounds(AttemptTimes(StepWorld(w, mv), moves, n, mv.now), k);
  }

  lemma ScheduleBounds(ts: seq<int>, k: nat)
    requires Backoff.Schedule([0] + ts)
    ensures k < |ts| ==> ts[k] >= Backoff.OnTime(k + 1) && k + 1 <= 5 + ts[k] / Backoff.MAX_DELAY
  {
    if k < |ts| {
      Backoff.LateScheduleIsLater([0] + ts, k + 1);
      SchedulePrefix([0] + ts, k + 2);
      assert ([0] + ts)[..k + 2][k + 1] == ts[k];
      Backoff.RetriesByTime(([0] + ts)[..k + 2], ts[k]);
    }
  }

  lemma SchedulePrefix(ts: seq<int>, k: nat)
    requires Backoff.Schedule(ts) && k <= |ts|
    ensures Backoff.Schedule(ts[..k])
  {
  }
}
