/** The debouncing of udev events: of all events received within a period only the first is
    passed on, when the period is over.  A trace lists, with their times, the things the loop
    waits for: an event received, the source closing, the timer firing, the send completing. */
module Debounce {

  datatype Step =
    | Take(event: string, at: int)
    | Close(at: int)
    | Fire(at: int)
    | Send(at: int)

  datatype Emission = Emission(event: string, at: int)

  /** Where the loop is: waiting for a first event, holding one while the timer runs, sending it,
      or returned. */
  datatype Phase = Idle | Pending(event: string, since: int) | Sending(event: string, fired: int) | Stopped

  // A timer never fires early; it may fire late, and events may be preferred to it when both are ready.
  predicate Legal(p: Phase, s: Step, period: nat) {
    match p
    case Idle => s.Take? || s.Close?
    case Pending(_, since) => s.Take? || s.Close? || (s.Fire? && s.at >= since + period)
    case Sending(_, _) => s.Send?
    case Stopped => false
  }

  function Next(p: Phase, s: Step): Phase {
    match p
    case Idle => if s.Take? then Pending(s.event, s.at) else Stopped
    case Pending(event, _) => if s.Take? then p else if s.Fire? then Sending(event, s.at) else Stopped
    case Sending(_, _) => Idle
    case Stopped => Stopped
  }

  // A trace the loop can go through from a phase reached at time `now`.
  predicate Trace(p: Phase, steps: seq<Step>, period: nat, now: int)
    decreases |steps|
  {
    steps == [] ||
    (steps[0].at >= now && Legal(p, steps[0], period) && Trace(Next(p, steps[0]), steps[1..], period, steps[0].at))
  }

  function Emissions(p: Phase, steps: seq<Step>): seq<Emission>
    decreases |steps|
  {
    if steps == [] then []
    else
      (if p.Sending? && steps[0].Send? then [Emission(p.event, steps[0].at)] else [])
      + Emissions(Next(p, steps[0]), steps[1..])
  }

  function PhaseAfter(p: Phase, steps: seq<Step>): Phase
    decreases |steps|
  {
    if steps == [] then p else PhaseAfter(Next(p, steps[0]), steps[1..])
  }

  lemma TraceTail(p: Phase, steps: seq<Step>, period: nat, now: int, i: nat)
    requires Trace(p, steps, period, now) && i < |steps|
    ensures Trace(PhaseAfter(p, steps[..i]), steps[i..], period, if i == 0 then now else steps[i - 1].at)
    ensures PhaseAfter(p, steps[..i + 1]) == Next(PhaseAfter(p, steps[..i]), steps[i])
    ensures Legal(PhaseAfter(p, steps[..i]), steps[i], period)
    decreases i
  {
    if i == 0 {
      assert steps[..1] == [steps[0]] && [steps[0]][1..] == [];
    } else {
      assert steps[..i][1..] == steps[1..][..i - 1] && steps[..i + 1][1..] == steps[1..][..i];
      assert steps[i..] == steps[1..][i - 1..];
      TraceTail(Next(p, steps[0]), steps[1..], period, steps[0].at, i - 1);
    }
  }

  lemma EmissionsStep(p: Phase, steps: seq<Step>, i: nat)
    requires i < |steps|
    ensures var q := PhaseAfter(p, steps[..i]);
      Emissions(q, steps[i..]) ==
        (if q.Sending? && steps[i].Send? then [Emission(q.event, steps[i].at)] else [])
        + Emissions(Next(q, steps[i]), steps[i + 1..])
  {
    assert steps[i..][1..] == steps[i + 1..];
  }

  // Nothing follows the close.
  lemma TraceEnds(steps: seq<Step>, period: nat, now: int, i: nat)
    requires Trace(Idle, steps, period, now) && i < |steps| && steps[i].Close?
    ensures i == |steps| - 1
    ensures Emissions(PhaseAfter(Idle, steps[..i]), steps[i..]) == []
  {
    TraceTail(Idle, steps, period, now, i);
    EmissionsStep(Idle, steps, i);
    assert steps[i..][1..] == steps[i + 1..];
    assert Trace(Stopped, steps[i + 1..], period, steps[i].at);
  }

  // After i steps the loop is in phase p and has emitted what belongs to them.
  predicate Progress(steps: seq<Step>, i: nat, p: Phase, emitted: seq<Emission>) {
    && i <= |steps| && PhaseAfter(Idle, steps[..i]) == p
    && emitted + Emissions(p, steps[i..]) == Emissions(Idle, steps)
    && forall j :: 0 <= j < i ==> !steps[j].Close?
  }

  lemma ProgressStarts(steps: seq<Step>)
    ensures Progress(steps, 0, Idle, [])
  {
    assert steps[..0] == [] && steps[0..] == steps;
  }

  lemma ProgressOn(steps: seq<Step>, period: nat, now: int, i: nat, p: Phase, emitted: seq<Emission>)
    requires Trace(Idle, steps, period, now) && i < |steps| && Progress(steps, i, p, emitted)
    ensures Legal(p, steps[i], period)
    ensures !steps[i].Close? ==>
      Progress(steps, i + 1, Next(p, steps[i]), if p.Sending? then emitted + [Emission(p.event, steps[i].at)] else emitted)
    ensures steps[i].Close? ==> emitted == Emissions(Idle, steps)
  {
    TraceTail(Idle, steps, period, now, i);
    EmissionsStep(Idle, steps, i);
    if steps[i].Close? {
      TraceEnds(steps, period, now, i);
    }
  }

  lemma ProgressEnds(steps: seq<Step>, p: Phase, emitted: seq<Emission>)
    requires Progress(steps, |steps|, p, emitted)
    ensures emitted == Emissions(Idle, steps) && forall j :: 0 <= j < |steps| ==> !steps[j].Close?
  {
    assert steps[|steps|..] == [];
  }

  // udevBlockMonitor: the outer loop takes an event and arms the timer, the inner loop drops
  // events until the timer fires, then the event is sent.  It returns when the source closes.
  method UdevBlockMonitor(steps: seq<Step>, period: nat, now: int) returns (emitted: seq<Emission>, returned: bool)
    requires Trace(Idle, steps, period, now)
    ensures emitted == Emissions(Idle, steps)
    ensures returned <==> exists i :: 0 <= i < |steps| && steps[i].Close?
  {
    emitted, returned := [], false;
    var i := 0;
    ghost var p := Idle;
    ProgressStarts(steps);
    while i < |steps|
      invariant Progress(steps, i, p, emitted)
      invariant i < |steps| ==> p == Idle
    {
      ProgressOn(steps, period, now, i, p, emitted);
      if steps[i].Close? {
        return emitted, true;
      }
      var event := steps[i].event;
      p := Pending(event, steps[i].at);
      i := i + 1;
      var fired := false;
      while !fired && i < |steps|
        invariant Progress(steps, i, p, emitted)
        invariant if fired then p.Sending? && p.event == event else p.Pending? && p.event == event
        decreases |steps| - i
      {
        ProgressOn(steps, period, now, i, p, emitted);
        if steps[i].Close? {
          return emitted, true;
        }
        fired := steps[i].Fire?;
        p := Next(p, steps[i]);
        i := i + 1;
      }
      if i < |steps| {
        ProgressOn(steps, period, now, i, p, emitted);
        emitted := emitted + [Emission(event, steps[i].at)];
        p := Idle;
        i := i + 1;
      }
    }
    ProgressEnds(steps, p, emitted);
  }

  // ---- emissions are at least a period apart ----

  predicate Spaced(es: seq<Emission>, period: nat) {
    forall i :: 0 < i < |es| ==> es[i].at >= es[i - 1].at + period
  }

  // The earliest time of the next emission.
  function Earliest(p: Phase, period: nat, now: int): int {
    match p
    case Pending(_, since) => since + period
    case Idle => now + period
    case _ => now
  }

  lemma {:induction false} EmissionsSpaced(p: Phase, steps: seq<Step>, period: nat, now: int)
    requires Trace(p, steps, period, now)
    ensures Spaced(Emissions(p, steps), period)
    ensures Emissions(p, steps) != [] ==> Emissions(p, steps)[0].at >= Earliest(p, period, now)
    decreases |steps|
  {
    if steps != [] {
      EmissionsSpaced(Next(p, steps[0]), steps[1..], period, steps[0].at);
      var later := Emissions(Next(p, steps[0]), steps[1..]);
      if p.Sending? {
        var es := [Emission(p.event, steps[0].at)] + later;
        forall i | 0 < i < |es| ensures es[i].at >= es[i - 1].at + period {
          if i > 1 {
            assert later[i - 1].at >= later[i - 1 - 1].at + period;
          }
        }
      } else {
        assert Emissions(p, steps) == later;
      }
    }
  }

  // ---- every received event is accounted for ----

  // What becomes of the event held after the first i steps.
  datatype Fate = Emitted(k: nat) | Dropped(k: nat) | Waiting

  // The first send or close from step i on decides.
  function FateFrom(steps: seq<Step>, i: nat): (f: Fate)
    requires i <= |steps|
    ensures !f.Waiting? ==> i <= f.k < |steps|
    ensures f.Emitted? ==> steps[f.k].Send?
    ensures f.Dropped? ==> steps[f.k].Close?
    decreases |steps| - i
  {
    if i == |steps| then Waiting
    else if steps[i].Send? then Emitted(i)
    else if steps[i].Close? then Dropped(i)
    else FateFrom(steps, i + 1)
  }

  function At(steps: seq<Step>, i: nat): Phase
    requires i <= |steps|
  {
    PhaseAfter(Idle, steps[..i])
  }

  predicate Holds(p: Phase, event: string) {
    (p.Pending? || p.Sending?) && p.event == event
  }

  lemma {:induction false} EmissionIsIn(p: Phase, steps: seq<Step>, k: nat)
    requires k < |steps| && PhaseAfter(p, steps[..k]).Sending? && steps[k].Send?
    ensures Emission(PhaseAfter(p, steps[..k]).event, steps[k].at) in Emissions(p, steps)
    decreases k
  {
    if k > 0 {
      assert steps[..k][1..] == steps[1..][..k - 1];
      EmissionIsIn(Next(p, steps[0]), steps[1..], k - 1);
    }
  }

  // A held event is emitted by the next send, unless the source closes before the timer fires.
  lemma {:induction false} HeldIsResolved(steps: seq<Step>, period: nat, now: int, i: nat, event: string)
    requires Trace(Idle, steps, period, now) && i <= |steps| && Holds(At(steps, i), event)
    ensures var f := FateFrom(steps, i);
      && (f.Emitted? ==> Emission(event, steps[f.k].at) in Emissions(Idle, steps))
      && (f.Dropped? ==> f.k == |steps| - 1 && At(steps, f.k).Pending? && At(steps, f.k).event == event)
      && (f.Waiting? ==> Holds(At(steps, |steps|), event))
    decreases |steps| - i
  {
    if i < |steps| {
      TraceTail(Idle, steps, period, now, i);
      if steps[i].Send? {
        EmissionIsIn(Idle, steps, i);
      } else if steps[i].Close? {
        TraceEnds(steps, period, now, i);
      } else {
        HeldIsResolved(steps, period, now, i + 1, event);
      }
    }
  }

  // A received event is either held from then on, or falls into the window of the event already
  // held; what is held is then emitted unless the source closes first.
  lemma EveryEventAccounted(steps: seq<Step>, period: nat, now: int, i: nat)
    requires Trace(Idle, steps, period, now) && i < |steps| && steps[i].Take?
    ensures var before, after := At(steps, i), At(steps, i + 1);
      && after.Pending?
      && (before == Idle ==> after == Pending(steps[i].event, steps[i].at))
      && (before != Idle ==> before == after && before.since <= steps[i].at)
      && var f := FateFrom(steps, i + 1);
         && (f.Emitted? ==> Emission(after.event, steps[f.k].at) in Emissions(Idle, steps)
                            && steps[f.k].at >= after.since + period)
         && (f.Dropped? ==> f.k == |steps| - 1 && At(steps, f.k) == after)
         && (f.Waiting? ==> Holds(At(steps, |steps|), after.event))
  {
    TraceTail(Idle, steps, period, now, i);
    HeldSince(steps, period, now, i);
    HeldIsResolved(steps, period, now, i + 1, At(steps, i + 1).event);
    FiresLate(steps, period, now, i + 1);
  }

  // The time of a step is not before that at which the held event was received.
  lemma {:induction false} HeldSince(steps: seq<Step>, period: nat, now: int, i: nat)
    requires Trace(Idle, steps, period, now) && i < |steps|
    ensures At(steps, i).Pending? ==> At(steps, i).since <= steps[i].at
    ensures At(steps, i).Sending? ==> At(steps, i).fired <= steps[i].at
    decreases i
  {
    TraceTail(Idle, steps, period, now, i);
    if i > 0 {
      TraceTail(Idle, steps, period, now, i - 1);
      HeldSince(steps, period, now, i - 1);
    } else {
      assert steps[..0] == [];
    }
  }

  // While an event is held its window stays as it is, and it is sent only after the window.
  lemma {:induction false} FiresLate(steps: seq<Step>, period: nat, now: int, i: nat)
    requires Trace(Idle, steps, period, now) && i <= |steps| && At(steps, i).Pending?
    ensures var p, f := At(steps, i), FateFrom(steps, i);
      && (f.Emitted? ==> steps[f.k].at >= p.since + period)
      && (f.Dropped? ==> At(steps, f.k) == p)
    decreases |steps| - i
  {
    if i < |steps| {
      TraceTail(Idle, steps, period, now, i);
      if steps[i].Take? {
        FiresLate(steps, period, now, i + 1);
      } else if steps[i].Fire? && i + 1 < |steps| {
        TraceTail(Idle, steps, period, now, i + 1);
        HeldSince(steps, period, now, i + 1);
      }
    }
  }

  // ---- every emission is an event received a period earlier ----

  // The step at which the event held after i steps was received.
  lemma {:induction false} OpenedAt(steps: seq<Step>, period: nat, now: int, i: nat) returns (j: nat)
    requires Trace(Idle, steps, period, now) && i <= |steps|
    requires At(steps, i).Pending? || At(steps, i).Sending?
    ensures j < i && steps[j].Take? && At(steps, j) == Idle && steps[j].event == At(steps, i).event
    ensures if At(steps, i).Pending? then At(steps, i).since == steps[j].at else At(steps, i).fired >= steps[j].at + period
    ensures forall m :: j < m < i ==> steps[m].Take? || steps[m].Fire?
    decreases i
  {
    j := 0;
    assert steps[..0] == [];
    if i > 0 {
      TraceTail(Idle, steps, period, now, i - 1);
      if At(steps, i - 1) == Idle {
        j := i - 1;
      } else {
        j := OpenedAt(steps, period, now, i - 1);
      }
    }
  }

  // Each send passes on an event received at least a period before, when nothing was pending, and
  // only events absorbed by it and its timer lie in between.
  lemma EveryEmissionReceived(steps: seq<Step>, period: nat, now: int, k: nat) returns (j: nat)
    requires Trace(Idle, steps, period, now) && k < |steps| && steps[k].Send?
    ensures j < k && steps[j].Take? && At(steps, j) == Idle
    ensures Emission(steps[j].event, steps[k].at) in Emissions(Idle, steps) && steps[k].at >= steps[j].at + period
    ensures forall m :: j < m < k ==> steps[m].Take? || steps[m].Fire?
  {
    TraceTail(Idle, steps, period, now, k);
    j := OpenedAt(steps, period, now, k);
    EmissionIsIn(Idle, steps, k);
    HeldSince(steps, period, now, k);
  }
}
