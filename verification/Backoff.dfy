/** The delay between two retries of a blocked deletion, and what whole retry schedules built
    from it look like.  Durations are in nanoseconds. */
module Backoff {
  import opened Conditions

  const SECOND: int := 1_000_000_000
  const MINUTE: int := 60 * SECOND
  const INITIAL_DELAY: int := 30 * SECOND
  const MAX_DELAY: int := 10 * MINUTE

  // The delay requested when the blocking condition has been in place for `elapsed`.
  function Delay(elapsed: int): int {
    if elapsed < INITIAL_DELAY then INITIAL_DELAY
    else if elapsed < MINUTE then MINUTE
    else if elapsed < 3 * MINUTE then 2 * MINUTE
    else if elapsed < 7 * MINUTE then 4 * MINUTE
    else if elapsed < 15 * MINUTE then 8 * MINUTE
    else MAX_DELAY
  }

  // The delay for a claim: a new blocker starts over, a known one is aged by its transition time.
  function DeletionDelay(conditions: seq<Condition>, reason: Reason, now: int): int {
    var c := Find(conditions, DeletionBlocked);
    if c.None? || c.value.reason != reason then INITIAL_DELAY else Delay(now - c.value.since)
  }

  lemma DelayBounds(elapsed: int)
    ensures INITIAL_DELAY <= Delay(elapsed) <= MAX_DELAY
    ensures Delay(elapsed) <= INITIAL_DELAY || Delay(elapsed) <= 2 * elapsed
  {
  }

  lemma DelayMonotone(a: int, b: int)
    requires a <= b
    ensures Delay(a) <= Delay(b)
  {
  }

  // In minutes, the delay is the largest power of two that is at most one more than the time elapsed, but
  // never more than ten; half a minute during the first half.
  lemma DelayIsPower(elapsed: int, k: nat)
    requires elapsed >= 30_000_000_000
    requires Pow2(k) * 60_000_000_000 <= elapsed + 60_000_000_000 < 2 * Pow2(k) * 60_000_000_000
    ensures Delay(elapsed) == if k <= 3 then Pow2(k) * 60_000_000_000 else 600_000_000_000
  {
    FirstPowers();
    if k >= 4 {
      PowersGrow(k);
    } else {
      assert k == 0 || k == 1 || k == 2 || k == 3;
    }
  }

  lemma {:induction false} PowersGrow(k: nat)
    requires k >= 4
    ensures Pow2(k) >= 16
  {
    FirstPowers();
    if k > 4 {
      PowersGrow(k - 1);
    }
  }

  lemma FirstDelay(elapsed: int)
    requires elapsed < 30_000_000_000
    ensures Delay(elapsed) == 30_000_000_000
  {
  }

  // The moment of the k-th retry, counted from the block, when every retry is on time.
  function OnTime(k: nat): (t: int)
    ensures t >= 0
  {
    if k == 0 then 0 else OnTime(k - 1) + Delay(OnTime(k - 1))
  }

  function Pow2(k: nat): (p: int)
    ensures p >= 1
  {
    if k == 0 then 1 else 2 * Pow2(k - 1)
  }

  lemma FirstFive()
    ensures OnTime(0) == 0 && OnTime(1) == 30 * SECOND && OnTime(2) == 90 * SECOND && OnTime(3) == 210 * SECOND
    ensures OnTime(4) == 450 * SECOND && OnTime(5) == 930 * SECOND
  {
    assert OnTime(1) == OnTime(0) + Delay(OnTime(0));
    assert OnTime(2) == OnTime(1) + Delay(OnTime(1));
    assert OnTime(3) == OnTime(2) + Delay(OnTime(2));
    assert OnTime(4) == OnTime(3) + Delay(OnTime(3));
  }

  lemma FirstPowers()
    ensures Pow2(0) == 1 && Pow2(1) == 2 && Pow2(2) == 4 && Pow2(3) == 8 && Pow2(4) == 16 && Pow2(5) == 32
  {
    assert Pow2(3) == 2 * Pow2(2) && Pow2(4) == 2 * Pow2(3);
  }

  lemma {:induction false} StaysAtMax(k: nat)
    requires k >= 5
    ensures OnTime(k) == 930 * SECOND + (k - 5) * MAX_DELAY && Delay(OnTime(k)) == MAX_DELAY
  {
    if k == 5 {
      FirstFive();
    } else {
      StaysAtMax(k - 1);
    }
  }

  // On-time retries double the delay from 30 seconds five times and then stay at ten minutes:
  // the delays are 30s, 1m, 2m, 4m, 8m, 10m, 10m, ...
  lemma OnTimeClosedForm(k: nat)
    ensures k <= 5 ==> OnTime(k) == 30 * SECOND * (Pow2(k) - 1)
    ensures k < 5 ==> Delay(OnTime(k)) == 30 * SECOND * Pow2(k)
    ensures k >= 5 ==> OnTime(k) == 930 * SECOND + (k - 5) * MAX_DELAY && Delay(OnTime(k)) == MAX_DELAY
  {
    FirstFive();
    FirstPowers();
    if k >= 5 {
      StaysAtMax(k);
    } else {
      assert k == 0 || k == 1 || k == 2 || k == 3 || k == 4;
    }
  }

  // A schedule: the elapsed times of successive attempts, none earlier than requested.
  ghost predicate Schedule(ts: seq<int>) {
    && (forall i :: 0 <= i < |ts| ==> ts[i] >= 0)
    && (forall i, j :: 0 <= i < j < |ts| && j == i + 1 ==> ts[j] >= ts[i] + Delay(ts[i]))
  }

  lemma {:induction false} LateScheduleIsLater(ts: seq<int>, k: nat)
    requires Schedule(ts) && k < |ts|
    ensures ts[k] >= OnTime(k)
  {
    if k > 0 {
      LateScheduleIsLater(ts, k - 1);
      DelayMonotone(OnTime(k - 1), ts[k - 1]);
      assert ts[k] >= ts[k - 1] + Delay(ts[k - 1]);
    }
  }

  // ... and the on-time schedule itself is one, so the bound is attained.
  lemma {:induction false} OnTimeIsSchedule(n: nat)
    ensures Schedule(seq(n, i requires 0 <= i < n => OnTime(i)))
  {
    var ts := seq(n, i requires 0 <= i < n => OnTime(i));
    forall i | 0 <= i < n - 1 ensures ts[i + 1] == ts[i] + Delay(ts[i]) {
      assert ts[i + 1] == OnTime(i + 1);
    }
  }

  // At most 5 + T / 10min retries happen in the first T of an unchanged blocking condition.
  lemma RetriesByTime(ts: seq<int>, horizon: int)
    requires Schedule(ts) && ts != [] && ts[|ts| - 1] <= horizon
    ensures |ts| - 1 <= 5 + horizon / MAX_DELAY
  {
    var k := |ts| - 1;
    LateScheduleIsLater(ts, k);
    if k > 5 {
      StaysAtMax(k);
      assert (k - 5) * MAX_DELAY <= horizon;
    }
  }

  // Retrying on time needs the condition to stay put: a blocker with a new reason, or none
  // recorded yet, is retried after exactly the initial delay.
  lemma NewBlockerStartsOver(conditions: seq<Condition>, reason: Reason, now: int)
    ensures !HasReason(conditions, DeletionBlocked, reason) ==> DeletionDelay(conditions, reason, now) == Delay(0)
    ensures HasReason(conditions, DeletionBlocked, reason) ==>
      DeletionDelay(conditions, reason, now) == Delay(now - Find(conditions, DeletionBlocked).value.since)
  {
  }
}
