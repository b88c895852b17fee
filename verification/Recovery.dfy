/** Recovery from an incomplete create ends: the requeue chain is bounded. */
module Recovery {
  import opened Items
  import opened Meta
  import opened Reconcile

  /** How soon a waiting recovery looks again. */
  const INTERVAL: Time := 15 * SECOND

  /** The annotations recovery writes, or None while it waits. */
  function Recovered(a: Annotations, seen: bool, period: Time, now: nat): Option<Annotations> {
    if seen then Some(WriteTime(a, SUCCEEDED, now))
    else if PendingDuring(a, period, now) then None
    else Some(a - {PENDING})
  }

  /** This is what the protocol does with the answer of its Observe. */
  lemma {:induction false} JudgeWritesRecovered(s: World)
    requires s.pc.Judging?
    ensures
      var r, v := JudgeStep(s).value, Recovered(s.el.annotations, s.pc.seen, GRACE, s.clock);
      && JudgeStep(s).Some?
      && (v.None? ==> r.pc.Idle?)
      && (v.Some? ==> r.pc.Recording? && Sent(r).annotations == v.value)
  {
  }

  /** Whatever recovery writes, the object is complete afterwards: a create that
  was seen is recorded as a success, one that was not is no longer announced. */
  lemma {:induction false} RecoveredIsComplete(a: Annotations, seen: bool, period: Time, now: nat)
    requires ReadTime(a, PENDING) <= now && Truncate(ReadTime(a, PENDING)) == ReadTime(a, PENDING)
    requires Recovered(a, seen, period, now).Some?
    ensures !CreateIncomplete(Recovered(a, seen, period, now).value)
    ensures
      var r := Recovered(a, seen, period, now).value;
      && (seen ==> ReadTime(r, SUCCEEDED) == Truncate(now) && ReadTime(r, PENDING) == ReadTime(a, PENDING))
      && (!seen ==> PENDING !in r && ReadTime(r, SUCCEEDED) == ReadTime(a, SUCCEEDED))
      && ReadTime(r, FAILED) == ReadTime(a, FAILED)
  {
    TruncateIsMonotone(ReadTime(a, PENDING), now);
  }

  ghost predicate Spaced(times: seq<nat>, interval: Time) {
    forall i :: 0 <= i < |times| - 1 ==> times[i] + interval <= times[i + 1]
  }

  lemma {:induction false} SpacedSpread(times: seq<nat>, interval: Time, i: nat)
    requires Spaced(times, interval) && i < |times|
    ensures times[0] + i * interval <= times[i]
  {
    if i == 0 {
    } else {
      SpacedSpread(times, interval, i - 1);
      assert i * interval == (i - 1) * interval + interval;
    }
  }

  /** Recovery terminates: in a chain of visits that follow each other at the
  requeue interval, at most period / interval, rounded up, can wait; the next
  one acts, whatever it observes, and leaves the object complete. */
  lemma {:induction false} RecoveryTerminates(a: Annotations, times: seq<nat>, seen: bool, period: Time, interval: Time, waits: nat)
    requires 0 < interval && period <= waits * interval
    requires |times| == waits + 1 && Spaced(times, interval)
    requires ReadTime(a, PENDING) <= times[0] && Truncate(ReadTime(a, PENDING)) == ReadTime(a, PENDING)
    ensures
      var r := Recovered(a, seen, period, times[waits]);
      r.Some? && !CreateIncomplete(r.value)
  {
    SpacedSpread(times, interval, waits);
    RecoveredIsComplete(a, seen, period, times[waits]);
  }

  /** With a grace period of two minutes and an interval of fifteen seconds a chain waits at most eight times. */
  lemma {:induction false} EightWaitsAtMost(a: Annotations, times: seq<nat>)
    requires Spaced(times, INTERVAL) && times != [] && ReadTime(a, PENDING) <= times[0]
    requires forall i :: 0 <= i < |times| ==> Recovered(a, false, GRACE, times[i]).None?
    ensures |times| <= 8
  {
    assert |times| > 8 ==> Recovered(a, false, GRACE, times[8]).None?;
    if |times| > 8 {
      SpacedSpread(times, INTERVAL, 8);
    }
  }

  /** And eight times it can be. */
  lemma {:induction false} EightWaitsHappen(p: nat, i: nat)
    requires p > 0 && i < 8
    ensures Recovered(map[PENDING := Stamp(p)], false, GRACE, p + i * INTERVAL).None?
  {
    assert i * INTERVAL <= 7 * INTERVAL < GRACE;
  }

  // ----- chains of visits in runs of the protocol -------------------------

  /** The i-th action of the run is a verdict of recovery on a copy announced at `p`. */
  ghost predicate JudgesAt(s: World, acts: seq<Action>, i: nat, p: nat) {
    && i < |acts| && acts[i].Judge? && Run(s, acts[..i]).Some?
    && var w := Run(s, acts[..i]).value;
       w.pc.Judging? && ReadTime(w.el.annotations, PENDING) == p
  }

  /** That verdict is to wait. */
  ghost predicate WaitsAt(s: World, acts: seq<Action>, i: nat, p: nat) {
    JudgesAt(s, acts, i, p) && JudgeStep(Run(s, acts[..i]).value).value.pc.Idle?
  }

  /** Visits of one requeue chain: each comes at least the interval after the
  one that requeued it. Other visits may come between them. */
  ghost predicate Chain(s: World, acts: seq<Action>, visits: seq<nat>, p: nat) {
    && (forall j :: 0 <= j < |visits| ==> JudgesAt(s, acts, visits[j], p))
    && (forall j :: 0 <= j < |visits| - 1 ==> visits[j] < visits[j + 1])
    && (forall j :: 0 <= j < |visits| - 1 ==>
          Run(s, acts[..visits[j]]).value.clock + INTERVAL <= Run(s, acts[..visits[j + 1]]).value.clock)
  }

  lemma {:induction false} StepKeepsClock(s: World, a: Action)
    requires Step(s, a).Some?
    ensures Step(s, a).value.clock >= s.clock
  {
    hide ShouldDelete, IsPaused, CreateIncomplete, PendingDuring, WriteTime, Without;
  }

  lemma {:induction false} ClockNeverRunsBack(s: World, acts: seq<Action>)
    requires Run(s, acts).Some?
    ensures Run(s, acts).value.clock >= s.clock
  {
    hide Step;
    if acts == [] {
    } else {
      ClockNeverRunsBack(s, acts[..|acts| - 1]);
      StepKeepsClock(Run(s, acts[..|acts| - 1]).value, acts[|acts| - 1]);
    }
  }

  lemma {:induction false} ChainSpreads(s: World, acts: seq<Action>, visits: seq<nat>, p: nat, j: nat)
    requires Chain(s, acts, visits, p) && p <= s.clock && j < |visits|
    ensures Run(s, acts[..visits[j]]).value.clock >= p + j * INTERVAL
  {
    hide Run, JudgeStep;
    if j == 0 {
      ClockNeverRunsBack(s, acts[..visits[0]]);
    } else {
      ChainSpreads(s, acts, visits, p, j - 1);
      assert Run(s, acts[..visits[j - 1]]).value.clock + INTERVAL <= Run(s, acts[..visits[j]]).value.clock;
    }
  }

  /** In every run of the protocol, whatever lies between its visits: a requeue
  chain on an object announced at `p` waits at its first eight visits at most;
  its ninth acts, whatever it observes, and if its write is accepted, the stored
  object is complete. */
  lemma {:induction false} ChainsEndInEveryRun(s: World, acts: seq<Action>, visits: seq<nat>, p: nat, j: nat)
    requires Chain(s, acts, visits, p) && p <= s.clock && Truncate(p) == p && 8 <= j < |visits|
    ensures !WaitsAt(s, acts, visits[j], p)
    ensures
      var w := JudgeStep(Run(s, acts[..visits[j]]).value).value;
      && w.pc.Recording? && !CreateIncomplete(Sent(w).annotations)
      && (WriteStep(w, Applied).Some? && WriteStep(w, Applied).value.server.Some? ==>
            !CreateIncomplete(WriteStep(w, Applied).value.server.value.annotations))
  {
    hide Run, CreateIncomplete;
    ChainSpreads(s, acts, visits, p, j);
    var v := Run(s, acts[..visits[j]]).value;
    assert JudgesAt(s, acts, visits[j], p);
    assert j * INTERVAL >= GRACE;
    JudgeWritesRecovered(v);
    RecoveredIsComplete(v.el.annotations, v.pc.seen, GRACE, v.clock);
  }
}
