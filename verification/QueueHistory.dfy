/** Runs of the queue protocol seen from one key: what was asked for it since it
was last handed out, and what the queue makes of that. */
module QueueHistory {
  import opened Items
  import opened QueueCore
  import opened QueueRuns
  import opened Rendezvous
  import PriorityQueue

  /** The step takes the key out of the queue. */
  predicate TakesOut(s: State, t: State, k: Key) {
    |t.removed| > |s.removed| && t.removed[|t.removed| - 1].key == k
  }

  /** All requests since the key was last taken out, whoever they are for. */
  function Past(s0: State, acts: seq<Action>, k: Key): seq<Request> {
    if acts == [] || Run(s0, acts).None? then []
    else
      var before, a := acts[..|acts| - 1], acts[|acts| - 1];
      if a.AddRun? then Past(s0, before, k) + a.reqs
      else if TakesOut(Run(s0, before).value, Run(s0, acts).value, k) then []
      else Past(s0, before, k)
  }

  /** The first request for the key. */
  function FirstIndex(reqs: seq<Request>, k: Key): (i: nat)
    ensures i <= |reqs|
    ensures i < |reqs| ==> reqs[i].key == k
    ensures forall h :: 0 <= h < i ==> reqs[h].key != k
  {
    if reqs == [] || reqs[0].key == k then 0 else 1 + FirstIndex(reqs[1..], k)
  }

  /** The queue's counter at the first request for the key since it was last taken out. */
  function Arrival(s0: State, acts: seq<Action>, k: Key): Option<nat> {
    if acts == [] || Run(s0, acts).None? then None
    else
      var before, a := acts[..|acts| - 1], acts[|acts| - 1];
      var s := Run(s0, before).value;
      var arrived := Arrival(s0, before, k);
      if a.AddRun? then
        if arrived.Some? || FirstIndex(a.reqs, k) == |a.reqs| then arrived
        else Some(AddAll(s.core, a.reqs[..FirstIndex(a.reqs, k)]).counter)
      else if TakesOut(s, Run(s0, acts).value, k) then None
      else arrived
  }

  function CounterOf(items: map<Key, Item>, k: Key): Option<nat> {
    if k in items then Some(items[k].counter) else None
  }

  /** Only adds and hand-outs touch the table. */
  lemma {:induction false} StepTouchesTable(s: State, a: Action)
    requires Step(s, a).Some? && !a.AddRun?
    ensures
      var t := Step(s, a).value;
      || (t.core.items == s.core.items && |t.removed| <= |s.removed|)
      || (exists x: Item :: t.core.items == s.core.items - {x.key} && t.removed == s.removed + [x])
  {
    hide AddAll, Insert, Delete;
    if a.SpinVisit? {
      VisitTouchesTable(s);
    }
  }

  lemma {:induction false} VisitTouchesTable(s: State)
    requires s.spin.Scanning? && s.spin.todo != []
    ensures
      var t := Visit(s);
      || (t.core.items == s.core.items && t.removed == s.removed)
      || (t.core.items == s.core.items - {s.spin.todo[0].key} && t.removed == s.removed + [s.spin.todo[0]])
  {
    hide MarkReady, Take;
    var x := s.spin.todo[0];
    TakenItems(s.core, x, s.clock);
    TakenItems(MarkReady(s.core, x, s.clock), x, s.clock);
  }

  lemma {:induction false} TakenItems(c: Core, x: Item, now: Time)
    ensures MarkReady(c, x, now).items == c.items && Take(c, x, now).items == c.items - {x.key}
  {
  }

  lemma {:induction false} AddArrives(c: Core, reqs: seq<Request>, past: seq<Request>, k: Key)
    requires Merges(c.items, past, k)
    ensures
      var i := FirstIndex(reqs, k);
      CounterOf(AddAll(c, reqs).items, k) ==
        if k in c.items then Some(c.items[k].counter)
        else if i == |reqs| then None
        else Some(AddAll(c, reqs[..i]).counter)
  {
    hide AddAll, BestOf;
    var i := FirstIndex(reqs, k);
    AddsMerge(c, past, reqs, k);
    var all := past + reqs;
    assert forall h :: 0 <= h < |past| ==> all[h] == past[h];
    assert forall h :: 0 <= h < |reqs| ==> all[|past| + h] == reqs[h];
    if k in AddAll(c, reqs).items {
      AddsKeepFirstCounter(c, reqs, k, i);
    }
  }

  /** In every run, whatever scans, hand-outs of other keys and completions lie
  between the adds: a key is queued exactly if it was asked for since it was
  last handed out, with the highest priority and the earliest ready time of
  those requests, and with the counter of the first of them. */
  lemma {:induction false} MergedInEveryRun(perPriority: bool, clock: Time, acts: seq<Action>, k: Key)
    requires Run(Start(perPriority, clock), acts).Some?
    ensures
      var s := Run(Start(perPriority, clock), acts).value;
      && Merges(s.core.items, Past(Start(perPriority, clock), acts, k), k)
      && CounterOf(s.core.items, k) == Arrival(Start(perPriority, clock), acts, k)
  {
    hide Step, Merges, AddAll;
    var s0 := Start(perPriority, clock);
    if acts == [] {
      NothingAsked(k);
    } else {
      var before, a := acts[..|acts| - 1], acts[|acts| - 1];
      MergedInEveryRun(perPriority, clock, before, k);
      var s, past := Run(s0, before).value, Past(s0, before, k);
      if a.AddRun? {
        AddRunAdds(s, a.reqs);
        AddsMerge(s.core, past, a.reqs, k);
        AddArrives(s.core, a.reqs, past, k);
      } else {
        StepTouchesTable(s, a);
        NothingAsked(k);
        TakenOutIsUnasked(s.core.items, Step(s, a).value.core.items, past, k);
      }
    }
  }

  lemma {:induction false} AddRunAdds(s: State, reqs: seq<Request>)
    requires Step(s, AddRun(reqs)).Some?
    ensures Step(s, AddRun(reqs)).value.core == AddAll(s.core, reqs)
  {
  }

  lemma {:induction false} NothingAsked(k: Key)
    ensures forall items: map<Key, Item> :: k !in items ==> Merges(items, [], k)
  {
  }

  lemma {:induction false} TakenOutIsUnasked(items: map<Key, Item>, rest: map<Key, Item>, past: seq<Request>, k: Key)
    requires Merges(items, past, k)
    ensures CounterOf(rest, k) == CounterOf(items, k) && (k in items ==> k in rest && rest[k] == items[k]) ==> Merges(rest, past, k)
  {
  }

  // ----- never before its time --------------------------------------------

  /** Some request for the key allows it to be handed out by `now`. */
  ghost predicate AllowedBy(past: seq<Request>, k: Key, now: Time) {
    exists i :: 0 <= i < |past| && past[i].key == k && (past[i].readyAt.Some? ==> past[i].readyAt.value <= now)
  }

  /** What a hand-out takes was queued and ready. */
  lemma {:induction false} TakenWasReady(s: State, a: Action, k: Key)
    requires Inv(s) && Step(s, a).Some? && TakesOut(s, Step(s, a).value, k)
    ensures k in s.core.items && (s.core.items[k].readyAt.Some? ==> s.core.items[k].readyAt.value <= s.clock)
  {
    hide Step, Visit;
    StepOnCore(s, a);
    assert a.SpinVisit?;
    VisitTakesReady(s, k);
  }

  lemma {:induction false} VisitTakesReady(s: State, k: Key)
    requires Inv(s) && s.spin.Scanning? && s.spin.todo != [] && TakesOut(s, Visit(s), k)
    ensures k in s.core.items && (s.core.items[k].readyAt.Some? ==> s.core.items[k].readyAt.value <= s.clock)
  {
    hide MarkReady, Take, Conserved, Delivered, Exhausted, Armed, Measured;
    var x := s.spin.todo[0];
    assert x in s.core.tree;
  }

  /** In every run a key is handed out only when some request made for it since
  it was last handed out allows it: at once, or from its ready time on. */
  lemma {:induction false} NeverBeforeItsTime(perPriority: bool, clock: Time, acts: seq<Action>, a: Action, k: Key)
    requires Run(Start(perPriority, clock), acts).Some?
    requires
      var s := Run(Start(perPriority, clock), acts).value;
      Step(s, a).Some? && TakesOut(s, Step(s, a).value, k)
    ensures
      AllowedBy(Past(Start(perPriority, clock), acts, k), k, Run(Start(perPriority, clock), acts).value.clock)
  {
    hide Start, Run, Past, Step, Inv, TakesOut;
    RunKeepsInv(perPriority, clock, acts);
    MergedInEveryRun(perPriority, clock, acts, k);
    TakenWasReady(Run(Start(perPriority, clock), acts).value, a, k);
  }

  /** Retries wait out their delay: a key for which nothing but rate-limited
  requests were made since it was last handed out is handed out no earlier than
  one of them, plus what the limiter answered. */
  lemma {:induction false} RetriesWaitOutTheirDelay(perPriority: bool, clock: Time, acts: seq<Action>, a: Action, k: Key, limiter: seq<int>)
    requires Run(Start(perPriority, clock), acts).Some?
    requires
      var s := Run(Start(perPriority, clock), acts).value;
      Step(s, a).Some? && TakesOut(s, Step(s, a).value, k)
    requires
      var past := Past(Start(perPriority, clock), acts, k);
      && |limiter| == |past|
      && forall i :: 0 <= i < |past| && past[i].key == k ==>
           past[i] == PriorityQueue.Requests(0, true, past[i].priority, [k], [limiter[i]], [past[i].now])[0]
    ensures
      var past := Past(Start(perPriority, clock), acts, k);
      exists i :: 0 <= i < |past| && past[i].key == k &&
        (limiter[i] > 0 ==> past[i].now + limiter[i] <= Run(Start(perPriority, clock), acts).value.clock)
  {
    hide Start, Run, Past, Step, TakesOut;
    NeverBeforeItsTime(perPriority, clock, acts, a, k);
    var past, now := Past(Start(perPriority, clock), acts, k), Run(Start(perPriority, clock), acts).value.clock;
    var i :| 0 <= i < |past| && past[i].key == k && (past[i].readyAt.Some? ==> past[i].readyAt.value <= now);
    var wait := PriorityQueue.RequestsMean(0, true, past[i].priority, [k], [limiter[i]], [past[i].now], 0);
  }
}
