/** The walk of `spin` in runs of the protocol: however the other actors come
between its visits, what it does from taking the locks to giving them up is one
scan, so what is proved of scans holds of every run. */
module ScanRuns {
  import opened Items
  import opened QueueCore
  import opened QueueRuns
  import opened Rendezvous

  /** The walk holds the locks before every action of the segment and has given them up after it. */
  ghost predicate Segment(s: State, acts: seq<Action>) {
    && Run(s, acts).Some? && Free(Run(s, acts).value)
    && forall i :: 0 <= i < |acts| ==> Run(s, acts[..i]).Some? && !Free(Run(s, acts[..i]).value)
  }

  /** What remains of the scan: `open` tells whether the hand-off in progress is received. */
  function Simulated(s: State, open: bool, env: seq<Reading>): Scan
    requires !Free(s) && |env| == |s.spin.todo|
  {
    if s.spin.Scanning? then ScanFrom(s.core, s.waiters, s.spin.todo, env)
    else if open then
      var rest := ScanFrom(s.core, s.waiters, s.spin.todo, env);
      rest.(handed := [s.spin.item] + rest.handed)
    else Scan(s.core, s.waiters, [], None, 0)
  }

  /** The readings fall between the two states, in order, and in an open queue every hand-off is received. */
  ghost predicate Plausible(s: State, t: State, open: bool, env: seq<Reading>) {
    && Monotone(env)
    && (forall i :: 0 <= i < |env| ==> s.clock <= env[i].now <= t.clock)
    && (!t.done ==> open && AllOpen(env))
  }

  /** The segment from `s` ends in `t` as the scan does; getters that announced
  themselves after the last visit are on top of its waiters, and a timer is
  counted from the visit that set it. */
  ghost predicate EndsAs(s: State, t: State, scan: Scan, env: seq<Reading>) {
    && t.core == scan.core && t.waiters >= scan.waiters
    && Received(t.received) == Received(s.received) + scan.handed
    && (scan.timer.None? <==> t.timer.None?)
    && (scan.timer.Some? ==>
          && scan.visited < |env| && env[scan.visited].now == t.lastScan
          && t.timer == Some(t.lastScan + scan.timer.value))
  }

  /** The others' actions while the walk holds the locks. */
  predicate Elsewhere(a: Action) {
    !a.SpinVisit? && !a.SpinSend? && !a.SpinAbandon? && !a.SpinFinish?
  }

  lemma {:induction false} OthersOnlyAnnounce(s: State, a: Action)
    requires !Free(s) && Elsewhere(a) && Step(s, a).Some?
    ensures
      var t := Step(s, a).value;
      && t.core == s.core && t.spin == s.spin && t.received == s.received && t.timer == s.timer
      && t.clock >= s.clock && (s.done ==> t.done)
      && t.waiters == s.waiters + if a.GetAnnounce? then 1 else 0
  {
    hide AddAll, Release;
  }

  /** A getter that announces itself is seen by the next visit. */
  lemma {:induction false} LaterArrival(c: Core, waiters: nat, todo: seq<Item>, env: seq<Reading>) returns (more: seq<Reading>)
    requires |env| == |todo|
    ensures |more| == |env| && (forall i :: 0 <= i < |env| ==> more[i].now == env[i].now && more[i].open == env[i].open)
    ensures
      var now, later := ScanFrom(c, waiters, todo, more), ScanFrom(c, waiters + 1, todo, env);
      now.waiters <= later.waiters && now == later.(waiters := now.waiters)
  {
    hide MarkReady, Take;
    more := env;
    if todo != [] {
      more := [env[0].(arrived := env[0].arrived + 1)] + env[1..];
      assert more[1..] == env[1..];
    }
  }

  lemma {:induction false} RunMonotone(s: State, acts: seq<Action>)
    requires Run(s, acts).Some?
    ensures Run(s, acts).value.clock >= s.clock && (s.done ==> Run(s, acts).value.done)
  {
    if acts == [] {
    } else {
      RunMonotone(s, acts[..|acts| - 1]);
      StepMonotone(Run(s, acts[..|acts| - 1]).value, acts[|acts| - 1]);
    }
  }

  lemma {:induction false} StepMonotone(s: State, a: Action)
    requires Step(s, a).Some?
    ensures Step(s, a).value.clock >= s.clock && (s.done ==> Step(s, a).value.done)
  {
    hide AddAll, Release, MarkReady, Take;
  }

  lemma {:induction false} SegmentTail(s: State, acts: seq<Action>)
    requires Segment(s, acts) && acts != []
    ensures !Free(s) && Step(s, acts[0]).Some?
    ensures
      var t := Step(s, acts[0]).value;
      Segment(t, acts[1..]) && Run(t, acts[1..]) == Run(s, acts)
  {
    hide Step;
    var a, rest := acts[0], acts[1..];
    assert acts[..0] == [] && !Free(Run(s, acts[..0]).value);
    if |acts| > 1 {
      assert Run(s, acts[..1]).Some?;
    }
    assert acts[..1] == [a] && [a][..0] == [] && (|acts| == 1 ==> acts == [a]);
    assert Run(s, [a]) == Step(s, a);
    assert acts == [a] + rest;
    RunFirst(s, a, rest);
    forall i | 0 <= i < |rest|
      ensures Run(Step(s, a).value, rest[..i]).Some? && !Free(Run(Step(s, a).value, rest[..i]).value)
    {
      RunFirst(s, a, rest[..i]);
      assert acts[..i + 1] == [a] + rest[..i];
    }
  }

  /** Readings no visit gets to. */
  function Padding(n: nat, now: Time): (env: seq<Reading>)
    ensures |env| == n
  {
    seq(n, i => Reading(now, 0, true))
  }

  lemma {:induction false} SegmentMonotone(s: State, acts: seq<Action>)
    requires Segment(s, acts)
    ensures Run(s, acts).Some? && Run(s, acts).value.clock >= s.clock && (s.done ==> Run(s, acts).value.done)
  {
    RunMonotone(s, acts);
  }

  lemma {:induction false} SegmentEnds(s: State, acts: seq<Action>)
    requires Segment(s, acts)
    ensures Free(s) <==> acts == []
    ensures acts == [] ==> Run(s, acts) == Some(s)
  {
    if acts == [] {
    } else {
      assert acts[..0] == [] && !Free(Run(s, acts[..0]).value);
    }
  }

  lemma {:induction false} AnnounceFirst(s: State, a: Action, t: State, open: bool, env: seq<Reading>) returns (more: seq<Reading>)
    requires !Free(s) && Elsewhere(a) && Step(s, a).Some? && |env| == |s.spin.todo|
    requires
      var r := Step(s, a).value;
      !Free(r) && r.spin == s.spin && Plausible(r, t, open, env) && EndsAs(r, t, Simulated(r, open, env), env)
    ensures |more| == |env| && Plausible(s, t, open, more) && EndsAs(s, t, Simulated(s, open, more), more)
  {
    hide Step, ScanFrom;
    OthersOnlyAnnounce(s, a);
    more := env;
    if a.GetAnnounce? && (s.spin.Scanning? || open) {
      more := LaterArrival(s.core, s.waiters, s.spin.todo, env);
    }
  }

  /** The walk comes to an item that is not ready. */
  lemma {:induction false} StopsAt(s: State) returns (env: seq<Reading>)
    requires s.spin.Scanning? && s.spin.todo != [] && !Ready(s.spin.todo[0], s.clock) && s.timer.None?
    ensures |env| == |s.spin.todo| && Plausible(s, Visit(s), true, env) && EndsAs(s, Visit(s), Simulated(s, true, env), env)
  {
    env := Padding(|s.spin.todo|, s.clock);
  }

  lemma {:induction false} VisitedOrTaken(s: State)
    requires s.spin.Scanning? && s.spin.todo != []
    ensures
      var r := Visit(s);
      && r.clock == s.clock && r.done == s.done && r.received == s.received
      && (Free(r) <==> !Ready(s.spin.todo[0], s.clock))
      && (!Free(r) ==> r.timer == s.timer && r.spin.todo == s.spin.todo[1..])
  {
    hide MarkReady, Take;
  }

  lemma {:induction false} VisitFirst(s: State, t: State, open: bool, env: seq<Reading>) returns (more: seq<Reading>)
    requires s.spin.Scanning? && s.spin.todo != [] && !Free(Visit(s)) && |env| == |s.spin.todo| - 1
    requires Visit(s).spin.todo == s.spin.todo[1..] && t.clock >= s.clock
    requires Plausible(Visit(s), t, open, env) && EndsAs(Visit(s), t, Simulated(Visit(s), open, env), env)
    ensures |more| == |s.spin.todo| && Plausible(s, t, true, more) && EndsAs(s, t, Simulated(s, true, more), more)
  {
    hide ScanFrom, Visit, Simulated, Received;
    VisitedOrTaken(s);
    VisitSimulates(s, open, env);
    more := [Reading(s.clock, 0, Visit(s).spin.Sending? ==> open)] + env;
  }

  /** One more visit in front of a scan. */
  lemma {:induction false} VisitSimulates(s: State, open: bool, env: seq<Reading>)
    requires s.spin.Scanning? && s.spin.todo != [] && !Free(Visit(s)) && |env| == |s.spin.todo| - 1
    requires Visit(s).spin.todo == s.spin.todo[1..]
    ensures
      var rest := Simulated(Visit(s), open, env);
      Simulated(s, true, [Reading(s.clock, 0, Visit(s).spin.Sending? ==> open)] + env) == rest.(visited := rest.visited + 1)
  {
    hide MarkReady, Take;
    VisitLocks(s.core, s.spin.todo[0], s.clock);
    var more := [Reading(s.clock, 0, Visit(s).spin.Sending? ==> open)] + env;
    assert more[1..] == env;
  }

  lemma {:induction false} SendFirst(s: State, g: nat, t: State, env: seq<Reading>)
    requires Step(s, SpinSend(g)).Some? && |env| == |s.spin.todo|
    requires
      var r := Step(s, SpinSend(g)).value;
      !Free(r) && r.spin.todo == s.spin.todo && Plausible(r, t, true, env) && EndsAs(r, t, Simulated(r, true, env), env)
    ensures Plausible(s, t, true, env) && EndsAs(s, t, Simulated(s, true, env), env)
  {
    hide ScanFrom;
    var r := Step(s, SpinSend(g)).value;
    assert r.received[..|s.received|] == s.received;
  }

  /** The walk is over, or the hand-off is given up. */
  lemma {:induction false} GivesUp(s: State, a: Action) returns (env: seq<Reading>)
    requires !Free(s) && (a.SpinAbandon? || a.SpinFinish?) && Step(s, a).Some? && s.timer.None?
    ensures |env| == |s.spin.todo| && Free(Step(s, a).value)
    ensures
      var t := Step(s, a).value;
      Plausible(s, t, a.SpinFinish?, env) && EndsAs(s, t, Simulated(s, a.SpinFinish?, env), env)
  {
    env := Padding(|s.spin.todo|, s.clock);
  }

  lemma {:induction false} SpinSteps(s: State, a: Action)
    requires !Free(s) && Step(s, a).Some?
    ensures a.SpinVisit? ==> s.spin.Scanning? && s.spin.todo != [] && Step(s, a).value == Visit(s)
    ensures a.SpinSend? ==>
      var r := Step(s, a).value;
      s.spin.Sending? && r.spin == Scanning(s.spin.todo) && r.timer == s.timer
    ensures a.SpinAbandon? ==> s.spin.Sending?
  {
    hide Visit, AddAll, Release;
  }

  /** From any point of the walk to its end, the protocol does what a scan does for some readings. */
  lemma {:induction false} SegmentIsScan(s: State, acts: seq<Action>) returns (open: bool, env: seq<Reading>)
    requires !Free(s) && s.timer.None? && Segment(s, acts)
    ensures |env| == |s.spin.todo| && Run(s, acts).Some? && (s.spin.Scanning? ==> open)
    ensures
      var t := Run(s, acts).value;
      Plausible(s, t, open, env) && EndsAs(s, t, Simulated(s, open, env), env)
    decreases |acts|
  {
    hide Segment, Step, Run, EndsAs, Simulated, Plausible, Visit;
    SegmentMonotone(s, acts);
    SegmentEnds(s, acts);
    SegmentTail(s, acts);
    var a, rest, t := acts[0], acts[1..], Run(s, acts).value;
    var r := Step(s, a).value;
    SegmentEnds(r, rest);
    SpinSteps(s, a);
    if Elsewhere(a) {
      OthersOnlyAnnounce(s, a);
      open, env := SegmentIsScan(r, rest);
      env := AnnounceFirst(s, a, t, open, env);
    } else if a.SpinVisit? {
      VisitedOrTaken(s);
      if Free(r) {
        env := StopsAt(s);
      } else {
        open, env := SegmentIsScan(r, rest);
        env := VisitFirst(s, t, open, env);
      }
      open := true;
    } else if a.SpinSend? {
      open, env := SegmentIsScan(r, rest);
      SendFirst(s, a.g, t, env);
    } else {
      env := GivesUp(s, a);
      open := a.SpinFinish?;
    }
  }

  /** Between `s` and `t` the first `v` items of the tree, and no others, were
  found ready, the i-th at `env[i].now`; nothing ready at the start is passed
  over, and the timer is left armed for the first item that was not ready. */
  ghost predicate LooksAt(s: State, t: State, v: nat, env: seq<Reading>) {
    var tree := s.core.tree;
    && v <= |tree| == |env|
    && (forall i :: 0 <= i < v ==>
          && s.clock <= env[i].now <= t.clock
          && (tree[i].readyAt.Some? ==> tree[i].readyAt.value <= env[i].now))
    && (forall i :: v <= i < |tree| ==> tree[i].readyAt.Some? && tree[i].readyAt.value > s.clock)
    && t.timer == if v < |tree| then tree[v].readyAt else None
  }

  /** Between `s` and `t` getters received, first things first, as many of the
  unlocked items among the first `v` as getters were waiting, or all of them;
  and nothing else was received but more of these. */
  ghost predicate Serves(s: State, t: State, v: nat)
    requires v <= |s.core.tree|
  {
    var before, all := Received(s.received), Received(t.received);
    var ready := s.core.tree[..v];
    && |all| >= |before| && all[..|before|] == before
    && FirstServedFirst(all[|before|..], Min(s.waiters, |Eligible(ready, s.core.locked)|), ready, s.core.locked)
  }

  lemma {:induction false} ScanLooksAt(s: State, t: State, env: seq<Reading>)
    requires Indexed(s.core) && |env| == |s.core.tree| && !t.done && Plausible(s, t, true, env)
    requires EndsAs(s, t, ScanFrom(s.core, s.waiters, s.core.tree, env), env)
    ensures LooksAt(s, t, ScanFrom(s.core, s.waiters, s.core.tree, env).visited, env)
  {
    hide ScanFrom, Indexed, Received;
    ScanIsNeverEarly(s.core, s.waiters, env);
    ScanMissesNothing(s.core, s.waiters, env);
  }

  lemma {:induction false} ScanServesRun(s: State, t: State, env: seq<Reading>)
    requires Indexed(s.core) && |env| == |s.core.tree| && !t.done && Plausible(s, t, true, env)
    requires EndsAs(s, t, ScanFrom(s.core, s.waiters, s.core.tree, env), env)
    ensures
      var v := ScanFrom(s.core, s.waiters, s.core.tree, env).visited;
      v <= |s.core.tree| && Serves(s, t, v)
  {
    hide ScanFrom, Indexed, Received, FirstServedFirst, Eligible;
    ScanServesFirstThingsFirst(s.core, s.waiters, env);
    var scan := ScanFrom(s.core, s.waiters, s.core.tree, env);
    assert Received(t.received)[|Received(s.received)|..] == scan.handed;
  }

  /** In every run, from the moment `spin` has taken the locks to the moment it
  gives them up, and whoever else moves meanwhile, items are served in order,
  none early, and none that was ready is missed. */
  lemma {:induction false} ScansInEveryRun(perPriority: bool, clock: Time, acts: seq<Action>, walk: seq<Action>) returns (v: nat, env: seq<Reading>)
    requires Run(Start(perPriority, clock), acts).Some?
    requires
      var s := Run(Start(perPriority, clock), acts).value;
      s.spin == Scanning(s.core.tree) && Segment(s, walk) && !Run(s, walk).value.done
    ensures
      var s := Run(Start(perPriority, clock), acts).value;
      LooksAt(s, Run(s, walk).value, v, env) && Serves(s, Run(s, walk).value, v)
  {
    hide Start, Run, Inv, Free, LooksAt, Serves;
    RunKeepsInv(perPriority, clock, acts);
    v, env := WalkServes(Run(Start(perPriority, clock), acts).value, walk);
  }

  lemma {:induction false} WalkServes(s: State, walk: seq<Action>) returns (v: nat, env: seq<Reading>)
    requires Inv(s) && s.spin == Scanning(s.core.tree) && Segment(s, walk) && !Run(s, walk).value.done
    ensures LooksAt(s, Run(s, walk).value, v, env) && Serves(s, Run(s, walk).value, v)
  {
    hide Run, Segment, ScanFrom, LooksAt, Serves, Plausible, EndsAs, Inv;
    StateFacts(s);
    var open;
    open, env := SegmentIsScan(s, walk);
    v := ScanFrom(s.core, s.waiters, s.core.tree, env).visited;
    ScanLooksAt(s, Run(s, walk).value, env);
    ScanServesRun(s, Run(s, walk).value, env);
    VisitedInTree(s, Run(s, walk).value, v, env);
  }

  lemma {:induction false} VisitedInTree(s: State, t: State, v: nat, env: seq<Reading>)
    requires LooksAt(s, t, v, env)
    ensures v <= |s.core.tree|
  {
  }

  lemma {:induction false} StateFacts(s: State)
    requires Inv(s)
    ensures Indexed(s.core) && (!Free(s) ==> s.timer.None?)
  {
  }
}
