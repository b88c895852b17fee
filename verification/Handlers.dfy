/** The informer's event handlers: each classifies what it is shown and offers
the resulting event to the queue, through the digest map or past it. */
module Handlers {
  import opened Items
  import opened Meta
  import opened Events
  import opened Informer
  import Dedup

  /** The shared map and the adds made so far. */
  datatype Inbox = Inbox(items: set<Dedup.Hash>, adds: seq<(Dedup.Event, Priority)>)

  function Handled(h: Dedup.Hasher, b: Inbox, v: Verdict, ref: Dedup.Ref, now: Time): Inbox {
    if v.Ignored? then b
    else
      var e := Dedup.Event(v.event, ref, now);
      var g := Dedup.Digest(h, e);
      if v.direct then b.(adds := b.adds + [(e, v.priority)])
      else if g in b.items then b
      else Inbox(b.items + {g}, b.adds + [(e, v.priority)])
  }

  class Callbacks {
    const hash: Dedup.Hasher
    const rules: seq<Rule>
    const actions: Actions
    var items: set<Dedup.Hash>
    var adds: seq<(Dedup.Event, Priority)>

    function Value(): Inbox
      reads this
    {
      Inbox(items, adds)
    }

    constructor (hash: Dedup.Hasher, rules: seq<Rule>, actions: Actions)
      ensures this.hash == hash && this.rules == rules && this.actions == actions
      ensures Value() == Inbox({}, [])
    {
      this.hash, this.rules, this.actions := hash, rules, actions;
      items, adds := {}, [];
    }

    /** `LoadOrStore`, then an add if nothing was there. */
    method Offer(e: Dedup.Event, priority: Priority)
      modifies this
      ensures Value() == Handled(hash, old(Value()), Enqueue(e.kind, priority, false), e.ref, e.queuedAt)
    {
      var g := Dedup.Digest(hash, e);
      var loaded := g in items;
      items := items + {g};
      if !loaded {
        adds := adds + [(e, priority)];
      }
      assert loaded ==> items == old(items);
    }

    method OnAdd(o: Object, ref: Dedup.Ref, now: Time)
      modifies this
      ensures Value() == Handled(hash, old(Value()), ClassifyAdd(actions, o), ref, now)
    {
      var priority := Normal;
      if FAILED in o.annotations || PENDING in o.annotations || SUCCEEDED in o.annotations {
        priority := Low;
      }
      Offer(Dedup.Event(EventFor(actions, CRCreated), ref, now), priority);
    }

    method OnUpdate(before: Object, after: Object, ref: Dedup.Ref, now: Time)
      modifies this
      ensures Value() == Handled(hash, old(Value()), ClassifyUpdate(rules, actions, before, after), ref, now)
    {
      if after.deleted {
        Offer(Dedup.Event(EventFor(actions, CRDeleted), ref, now), High);
        return;
      }
      var rule := MatchRules(rules, before.annotations, after.annotations);
      if rule.Some? {
        adds := adds + [(Dedup.Event(rule.value, ref, now), Normal)];
        return;
      }
      if after.spec.Malformed? {
        return;
      }
      if before.spec.Malformed? {
        return;
      }
      if after.spec != before.spec {
        Offer(Dedup.Event(EventFor(actions, CRUpdated), ref, now), High);
      } else if before.version == after.version {
        Offer(Dedup.Event(EventFor(actions, CRObserved), ref, now), Low);
      }
    }

    method OnDelete(o: Object, ref: Dedup.Ref, now: Time)
      modifies this
      ensures Value() == Handled(hash, old(Value()), ClassifyRemoved(actions, o), ref, now)
    {
      if !o.deleted {
        return;
      }
      adds := adds + [(Dedup.Event(EventFor(actions, CRDeleted), ref, now), High)];
    }
  }

  /** The steps of the concurrent machine that one handler call takes. */
  function Steps(h: Dedup.Hasher, s: Dedup.State, id: nat, v: Verdict, ref: Dedup.Ref, now: Time): seq<Dedup.Action> {
    if v.Ignored? then []
    else
      var e := Dedup.Event(v.event, ref, now);
      if v.direct then [Dedup.DirectAdd(e)]
      else if Dedup.Digest(h, e) in s.items then [Dedup.Callback(id, e)]
      else [Dedup.Callback(id, e), Dedup.CallbackAdd(id)]
  }

  /** Uninterrupted, those steps do to the shared map and the queue what the handler does. */
  lemma {:induction false} HandlersTakeMachineSteps(h: Dedup.Hasher, s: Dedup.State, id: nat, v: Verdict, ref: Dedup.Ref, now: Time)
    requires id !in s.callbacks
    ensures
      var t := Dedup.Run(h, s, Steps(h, s, id, v, ref, now));
      var b := Handled(h, Inbox(s.items.Keys, []), v, ref, now);
      && t.Some? && t.value.items.Keys == b.items
      && t.value.queue == s.queue + (set x | x in b.adds :: x.0)
      && t.value.callbacks == s.callbacks && t.value.workers == s.workers
  {
    hide Dedup.Run;
    var adds := Handled(h, Inbox(s.items.Keys, []), v, ref, now).adds;
    if v.Ignored? {
      Dedup.NoStep(h, s);
    } else {
      var e := Dedup.Event(v.event, ref, now);
      OneStep(h, s, if v.direct then Dedup.DirectAdd(e) else Dedup.Callback(id, e));
      if !v.direct && Dedup.Digest(h, e) !in s.items {
        OfferRuns(h, s, id, e);
      }
      assert adds == [] || adds == [(e, v.priority)];
      assert adds != [] ==> (set x | x in adds :: x.0) == {e};
    }
  }

  lemma {:induction false} OneStep(h: Dedup.Hasher, s: Dedup.State, a: Dedup.Action)
    ensures Dedup.Run(h, s, [a]) == Dedup.Step(h, s, a)
  {
    hide Dedup.Step;
    assert [a][..0] == [];
  }

  lemma {:induction false} OfferRuns(h: Dedup.Hasher, s: Dedup.State, id: nat, e: Dedup.Event)
    requires id !in s.callbacks && Dedup.Digest(h, e) !in s.items
    ensures Dedup.Run(h, s, [Dedup.Callback(id, e), Dedup.CallbackAdd(id)]) ==
            Some(s.(items := s.items[Dedup.Digest(h, e) := s.clock], queue := s.queue + {e}, clock := s.clock + 2))
  {
    var a, b := Dedup.Callback(id, e), Dedup.CallbackAdd(id);
    OneStep(h, s, a);
    Dedup.RunExtends(h, s, [a], b);
    assert [a] + [b] == [a, b];
    assert s.callbacks[id := e] - {id} == s.callbacks;
  }

  // ----- the life of an object --------------------------------------------

  type Adds = seq<(Dedup.Event, Priority)>

  /** What one handler call adds, given what the map holds when it looks. */
  function AddsOf(h: Dedup.Hasher, v: Verdict, ref: Dedup.Ref, now: Time, items: set<Dedup.Hash>): Adds {
    Handled(h, Inbox(items, []), v, ref, now).adds
  }

  /** How an object's versions reach the handlers: it appears, it changes, it
  goes. `maps` and `clock` are what the map holds and the time at each call. */
  datatype Life = Life(ref: Dedup.Ref, versions: seq<Object>, maps: seq<set<Dedup.Hash>>, clock: seq<Time>)

  /** Deletion, once requested, is not taken back. */
  ghost predicate Possible(l: Life) {
    && l.versions != [] && |l.maps| == |l.clock| == |l.versions| + 1
    && forall i, j :: 0 <= i < j < |l.versions| && l.versions[i].deleted ==> l.versions[j].deleted
  }

  /** What the call for the n-th version adds. */
  function AddsAt(h: Dedup.Hasher, rules: seq<Rule>, actions: Actions, l: Life, n: nat): Adds
    requires Possible(l) && 0 < n <= |l.versions|
  {
    var v := if n == 1 then ClassifyAdd(actions, l.versions[0])
             else ClassifyUpdate(rules, actions, l.versions[n - 2], l.versions[n - 1]);
    AddsOf(h, v, l.ref, l.clock[n - 1], l.maps[n - 1])
  }

  /** All adds up to and with the n-th version. */
  function AddsUpTo(h: Dedup.Hasher, rules: seq<Rule>, actions: Actions, l: Life, n: nat): Adds
    requires Possible(l) && n <= |l.versions|
  {
    if n == 0 then [] else AddsUpTo(h, rules, actions, l, n - 1) + AddsAt(h, rules, actions, l, n)
  }

  function AddsOfLife(h: Dedup.Hasher, rules: seq<Rule>, actions: Actions, l: Life): Adds
    requires Possible(l)
  {
    var n := |l.versions|;
    AddsUpTo(h, rules, actions, l, n) + AddsOf(h, ClassifyRemoved(actions, l.versions[n - 1]), l.ref, l.clock[n], l.maps[n])
  }

  ghost predicate HasDelete(adds: Adds) {
    exists i :: 0 <= i < |adds| && adds[i].0.kind == Delete
  }

  /** Deletion is the only thing configured to yield Delete events, as it is by default. */
  ghost predicate DeletesOnlyOnDelete(rules: seq<Rule>, actions: Actions) {
    && (forall i :: 0 <= i < |rules| ==> rules[i].event != Delete)
    && (forall k: Kind :: EventFor(actions, k) == Delete <==> k == CRDeleted)
  }

  lemma {:induction false} DefaultDeletes()
    ensures DeletesOnlyOnDelete(DEFAULT_RULES, map[])
  {
  }

  lemma {:induction false} HasDeleteGrows(a: Adds, b: Adds)
    ensures HasDelete(a + b) <==> HasDelete(a) || HasDelete(b)
  {
    assert forall i :: 0 <= i < |a| ==> (a + b)[i] == a[i];
    assert forall i :: 0 <= i < |b| ==> (a + b)[|a| + i] == b[i];
    if HasDelete(a + b) && !HasDelete(a) {
      var i :| 0 <= i < |a + b| && (a + b)[i].0.kind == Delete;
      assert i >= |a| && b[i - |a|].0.kind == Delete;
    }
  }

  lemma {:induction false} RulesYieldNoDelete(rules: seq<Rule>, before: Annotations, after: Annotations)
    requires forall i :: 0 <= i < |rules| ==> rules[i].event != Delete
    ensures FirstMatch(rules, before, after) != Some(Delete)
  {
    if rules == [] {
    } else {
      RulesYieldNoDelete(rules[1..], before, after);
    }
  }

  lemma {:induction false} NoDeleteWhileLive(h: Dedup.Hasher, rules: seq<Rule>, actions: Actions, l: Life, n: nat)
    requires Possible(l) && n <= |l.versions| && DeletesOnlyOnDelete(rules, actions)
    requires forall i :: 0 <= i < n ==> !l.versions[i].deleted
    ensures !HasDelete(AddsUpTo(h, rules, actions, l, n))
  {
    if n == 0 {
    } else {
      NoDeleteWhileLive(h, rules, actions, l, n - 1);
      if n > 1 {
        RulesYieldNoDelete(rules, l.versions[n - 2].annotations, l.versions[n - 1].annotations);
      }
      HasDeleteGrows(AddsUpTo(h, rules, actions, l, n - 1), AddsAt(h, rules, actions, l, n));
    }
  }

  /** Whatever the map holds at each call: a life puts a Delete event into the
  queue exactly if deletion was requested, and then the last thing it adds is
  one, with high priority. */
  lemma {:induction false} DeleteReachesQueue(h: Dedup.Hasher, rules: seq<Rule>, actions: Actions, l: Life)
    requires Possible(l) && DeletesOnlyOnDelete(rules, actions)
    ensures
      var adds, n := AddsOfLife(h, rules, actions, l), |l.versions|;
      && (HasDelete(adds) <==> l.versions[n - 1].deleted)
      && (l.versions[n - 1].deleted ==>
            adds != [] && adds[|adds| - 1] == (Dedup.Event(Delete, l.ref, l.clock[n]), High))
  {
    var n := |l.versions|;
    var last := AddsOf(h, ClassifyRemoved(actions, l.versions[n - 1]), l.ref, l.clock[n], l.maps[n]);
    HasDeleteGrows(AddsUpTo(h, rules, actions, l, n), last);
    if l.versions[n - 1].deleted {
      assert EventFor(actions, CRDeleted) == Delete;
      assert last == [(Dedup.Event(Delete, l.ref, l.clock[n]), High)];
      assert last[0].0.kind == Delete;
    } else {
      NoDeleteWhileLive(h, rules, actions, l, n);
    }
  }

  // ----- what changes yield -----------------------------------------------

  /** Nothing but the spec and the version decides what the n-th version yields:
  it is live, both specs can be read, no rule matches, and no event of the
  object is in the map. */
  ghost predicate PlainAt(h: Dedup.Hasher, rules: seq<Rule>, l: Life, n: nat)
    requires Possible(l) && 1 < n <= |l.versions|
  {
    var o, v := l.versions[n - 2], l.versions[n - 1];
    && !v.deleted && !o.spec.Malformed? && !v.spec.Malformed?
    && (forall i :: 0 <= i < |rules| ==> !Matches(rules[i], o.annotations, v.annotations))
    && (forall k: EventType :: h(k, l.ref) !in l.maps[n - 1])
  }

  /** With default actions: a spec change, and only that, yields an Update with
  high priority; a resync, and only that, an Observe with low priority; and the
  rest, new versions of the same spec, nothing. */
  lemma {:induction false} ChangesYield(h: Dedup.Hasher, rules: seq<Rule>, l: Life, n: nat)
    requires Possible(l) && 1 < n <= |l.versions| && PlainAt(h, rules, l, n)
    ensures
      var o, v, adds := l.versions[n - 2], l.versions[n - 1], AddsAt(h, rules, map[], l, n);
      && (adds == [(Dedup.Event(Update, l.ref, l.clock[n - 1]), High)] <==> v.spec != o.spec)
      && (adds == [(Dedup.Event(Observe, l.ref, l.clock[n - 1]), Low)] <==> v.spec == o.spec && v.version == o.version)
      && (adds == [] <==> v.spec == o.spec && v.version != o.version)
  {
    var o, v := l.versions[n - 2], l.versions[n - 1];
    FirstMatchAt(rules, o.annotations, v.annotations, |rules|);
    assert h(Update, l.ref) !in l.maps[n - 1] && h(Observe, l.ref) !in l.maps[n - 1];
    var update, observe := Dedup.Event(Update, l.ref, l.clock[n - 1]), Dedup.Event(Observe, l.ref, l.clock[n - 1]);
    var adds := AddsAt(h, rules, map[], l, n);
    assert v.spec != o.spec ==> adds == [(update, High)];
    assert v.spec == o.spec && v.version == o.version ==> adds == [(observe, Low)];
    assert [(update, High)][0] != [(observe, Low)][0];
  }

  /** A version under deletion yields a Delete with high priority, whatever else
  changed, unless one is already on its way. */
  lemma {:induction false} DeletedVersionYields(h: Dedup.Hasher, rules: seq<Rule>, l: Life, n: nat)
    requires Possible(l) && 1 < n <= |l.versions| && l.versions[n - 1].deleted
    ensures
      AddsAt(h, rules, map[], l, n) ==
        if h(Delete, l.ref) in l.maps[n - 1] then [] else [(Dedup.Event(Delete, l.ref, l.clock[n - 1]), High)]
  {
  }

  /** Configured actions replace the event types, not the priorities. */
  lemma {:induction false} ActionsReplaceEvents(h: Dedup.Hasher, rules: seq<Rule>, actions: Actions, l: Life, n: nat)
    requires Possible(l) && 1 < n <= |l.versions| && PlainAt(h, rules, l, n)
    ensures
      var adds, plain := AddsAt(h, rules, actions, l, n), AddsAt(h, rules, map[], l, n);
      && |adds| == |plain| <= 1
      && (adds != [] ==>
            && adds[0].1 == plain[0].1
            && adds[0].0.kind ==
                 if plain[0].0.kind == Update && CRUpdated in actions then actions[CRUpdated]
                 else if plain[0].0.kind == Observe && CRObserved in actions then actions[CRObserved]
                 else plain[0].0.kind)
  {
    var o, v := l.versions[n - 2], l.versions[n - 1];
    FirstMatchAt(rules, o.annotations, v.annotations, |rules|);
    assert forall k: EventType :: h(k, l.ref) !in l.maps[n - 1];
  }

  /** First sight yields an Observe by default, unless one is already on its way. */
  lemma {:induction false} FirstSightYields(h: Dedup.Hasher, rules: seq<Rule>, l: Life)
    requires Possible(l)
    ensures
      var adds := AddsAt(h, rules, map[], l, 1);
      if h(Observe, l.ref) in l.maps[0] then adds == []
      else |adds| == 1 && adds[0].0 == Dedup.Event(Observe, l.ref, l.clock[0])
  {
  }

  function CountOf(adds: Adds, kind: EventType, priority: Priority): nat {
    if adds == [] then 0
    else
      var a := adds[|adds| - 1];
      CountOf(adds[..|adds| - 1], kind, priority) + if a.0.kind == kind && a.1 == priority then 1 else 0
  }

  /** How many of the first `n` versions changed the spec. */
  function SpecChanges(versions: seq<Object>, n: nat): nat
    requires n <= |versions|
  {
    if n < 2 then 0
    else SpecChanges(versions, n - 1) + if versions[n - 1].spec != versions[n - 2].spec then 1 else 0
  }

  lemma {:induction false} CountOfConcat(a: Adds, b: Adds, kind: EventType, priority: Priority)
    ensures CountOf(a + b, kind, priority) == CountOf(a, kind, priority) + CountOf(b, kind, priority)
  {
    if b == [] {
      assert a + b == a;
    } else {
      CountOfConcat(a, b[..|b| - 1], kind, priority);
      assert (a + b)[..|a + b| - 1] == a + b[..|b| - 1];
    }
  }

  /** Over a life in which nothing interferes there are exactly as many Updates,
  with high priority, as spec changes: none is lost and none is made up. */
  lemma {:induction false} UpdatesMirrorSpecChanges(h: Dedup.Hasher, rules: seq<Rule>, l: Life, n: nat)
    requires Possible(l) && n <= |l.versions| && forall m :: 1 < m <= n ==> PlainAt(h, rules, l, m)
    ensures CountOf(AddsUpTo(h, rules, map[], l, n), Update, High) == SpecChanges(l.versions, n)
  {
    hide PlainAt, AddsAt;
    if n == 0 {
    } else {
      UpdatesMirrorSpecChanges(h, rules, l, n - 1);
      CountOfConcat(AddsUpTo(h, rules, map[], l, n - 1), AddsAt(h, rules, map[], l, n), Update, High);
      if n == 1 {
        FirstSightYields(h, rules, l);
        OneAdd(AddsAt(h, rules, map[], l, n));
      } else {
        ChangesYield(h, rules, l, n);
        OneAdd(AddsAt(h, rules, map[], l, n));
      }
    }
  }

  lemma {:induction false} OneAdd(adds: Adds)
    requires |adds| <= 1
    ensures CountOf(adds, Update, High) == if adds != [] && adds[0].0.kind == Update && adds[0].1 == High then 1 else 0
  {
    if adds != [] {
      assert adds[..0] == [];
    }
  }
}
