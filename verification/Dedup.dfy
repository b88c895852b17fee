/** The digest map shared by informer callbacks and workers, before shutdown.
Every access to the map or to the queue is one atomic step; any number of
callbacks and workers interleave. */
module Dedup {
  import opened Items
  import opened Events

  type Ref(==, !new)
  type Hash(==, !new)

  datatype Event = Event(kind: EventType, ref: Ref, queuedAt: Time)

  type Hasher = (EventType, Ref) -> Hash

  /** The digest leaves the queueing time out; nothing is asked of the hash function. */
  function Digest(h: Hasher, e: Event): Hash {
    h(e.kind, e.ref)
  }

  /** Where a worker is. `Working` is before its `items.Delete`; the three steps
  after `Checking` are the body of `handleErr`. */
  datatype Pc =
    | Idle
    | Working(e: Event, since: nat)
    | Deleted(e: Event, ended: nat, failed: bool)
    | Checking(e: Event, ended: nat)
    | Loading(e: Event, ended: nat)
    | Storing(e: Event, ended: nat)
    | Adding(e: Event)

  /** A failure that `handleErr` decided to retry. */
  datatype Debt = Debt(digest: Hash, ended: nat)

  /** `clock`, the stamps, `started` and `debts` are history, which no step looks at:
  when a digest was stored, when an event with it was last taken from the
  queue, and which retriable failures there were. */
  datatype State = State(items: map<Hash, nat>, callbacks: map<nat, Event>, queue: set<Event>, workers: seq<Pc>,
                         clock: nat, started: map<Hash, nat>, debts: set<Debt>)

  datatype Action =
    | Callback(id: nat, e: Event)           // LoadOrStore in an informer callback
    | CallbackAdd(id: nat)                  // the add that follows if nothing was loaded
    | DirectAdd(e: Event)                   // an add that does not consult the map
    | Get(w: nat, e: Event)
    | Finish(w: nat, failed: bool)          // processing ends; items.Delete
    | Release(w: nat)                       // Forget and Done
    | Check(w: nat, retry: bool)            // NumRequeues against the limit
    | Load(w: nat)
    | Store(w: nat)
    | AddAgain(w: nat)
    | TraceIdFails(w: nat)                  // no trace id: the loop goes on at once

  function Init(workers: nat): State {
    State(map[], map[], {}, seq(workers, i => Idle), 0, map[], {})
  }

  predicate Enabled(s: State, a: Action) {
    match a
    case Callback(id, e) => id !in s.callbacks
    case CallbackAdd(id) => id in s.callbacks
    case DirectAdd(e) => true
    case Get(w, e) => w < |s.workers| && s.workers[w].Idle? && e in s.queue
    case Finish(w, failed) => w < |s.workers| && s.workers[w].Working?
    case Release(w) => w < |s.workers| && s.workers[w].Deleted?
    case Check(w, retry) => w < |s.workers| && s.workers[w].Checking?
    case Load(w) => w < |s.workers| && s.workers[w].Loading?
    case Store(w) => w < |s.workers| && s.workers[w].Storing?
    case AddAgain(w) => w < |s.workers| && s.workers[w].Adding?
    case TraceIdFails(w) => w < |s.workers| && s.workers[w].Working?
  }

  function Goto(s: State, w: nat, pc: Pc): State
    requires w < |s.workers|
  {
    s.(workers := s.workers[w := pc])
  }

  function Effect(h: Hasher, s: State, a: Action): State
    requires Enabled(s, a)
  {
    match a
    case Callback(id, e) =>
      if Digest(h, e) in s.items then s
      else s.(items := s.items[Digest(h, e) := s.clock], callbacks := s.callbacks[id := e])
    case CallbackAdd(id) =>
      s.(callbacks := s.callbacks - {id}, queue := s.queue + {s.callbacks[id]})
    case DirectAdd(e) => s.(queue := s.queue + {e})
    case Get(w, e) =>
      Goto(s, w, Working(e, s.clock)).(queue := s.queue - {e}, started := s.started[Digest(h, e) := s.clock])
    case Finish(w, failed) =>
      var e := s.workers[w].e;
      Goto(s, w, Deleted(e, s.clock, failed)).(items := s.items - {Digest(h, e)})
    case Release(w) =>
      var pc := s.workers[w];
      Goto(s, w, if pc.failed then Checking(pc.e, pc.ended) else Idle)
    case Check(w, retry) =>
      var pc := s.workers[w];
      if !retry then Goto(s, w, Idle)
      else Goto(s, w, Loading(pc.e, pc.ended)).(debts := s.debts + {Debt(Digest(h, pc.e), pc.ended)})
    case Load(w) =>
      var pc := s.workers[w];
      Goto(s, w, if Digest(h, pc.e) in s.items then Idle else Storing(pc.e, pc.ended))
    case Store(w) =>
      var pc := s.workers[w];
      Goto(s, w, Adding(pc.e)).(items := s.items[Digest(h, pc.e) := s.clock])
    case AddAgain(w) =>
      Goto(s, w, Idle).(queue := s.queue + {s.workers[w].e})
    case TraceIdFails(w) => Goto(s, w, Idle)
  }

  function Step(h: Hasher, s: State, a: Action): Option<State> {
    if Enabled(s, a) then Some(Effect(h, s, a).(clock := s.clock + 1)) else None
  }

  function Run(h: Hasher, s: State, acts: seq<Action>): Option<State> {
    if acts == [] then Some(s)
    else
      var t := Run(h, s, acts[..|acts| - 1]);
      if t.None? then None else Step(h, t.value, acts[|acts| - 1])
  }

  // ----- the invariant ----------------------------------------------------

  /** An event with this digest is about to be added, or queued. */
  ghost predicate Waiting(h: Hasher, s: State, g: Hash) {
    || (exists id :: id in s.callbacks && Digest(h, s.callbacks[id]) == g)
    || (exists e :: e in s.queue && Digest(h, e) == g)
    || (exists w :: 0 <= w < |s.workers| && s.workers[w].Adding? && Digest(h, s.workers[w].e) == g)
  }

  /** An event with this digest is being processed, since after `t`. */
  ghost predicate InFlight(h: Hasher, s: State, g: Hash, t: nat) {
    exists w :: 0 <= w < |s.workers| && s.workers[w].Working? && Digest(h, s.workers[w].e) == g && s.workers[w].since > t
  }

  /** A stored digest has an event behind it that was taken, if at all, after the store. */
  ghost predicate Backed(h: Hasher, s: State) {
    forall g :: g in s.items ==> Waiting(h, s, g) || InFlight(h, s, g, s.items[g])
  }

  /** History: workers are behind the clock, and a digest found by a worker that
  has deleted it was stored since. */
  ghost predicate Dated(h: Hasher, s: State) {
    && (forall g :: g in s.items ==> s.items[g] < s.clock)
    && (forall w :: 0 <= w < |s.workers| ==> PcDated(h, s, s.workers[w]))
  }

  ghost predicate PcDated(h: Hasher, s: State, pc: Pc) {
    && (pc.Working? ==> Digest(h, pc.e) in s.started && pc.since <= s.started[Digest(h, pc.e)] < s.clock)
    && (pc.Deleted? || pc.Checking? || pc.Loading? || pc.Storing? ==> pc.ended < s.clock)
    && (pc.Deleted? || pc.Checking? || pc.Loading? ==> StoredSince(h, s, pc.e, pc.ended))
  }

  ghost predicate StoredSince(h: Hasher, s: State, e: Event, t: nat) {
    Digest(h, e) in s.items ==> s.items[Digest(h, e)] > t
  }

  ghost predicate Retrying(h: Hasher, s: State, d: Debt) {
    exists w :: 0 <= w < |s.workers| && (s.workers[w].Loading? || s.workers[w].Storing?)
                && Digest(h, s.workers[w].e) == d.digest && s.workers[w].ended == d.ended
  }

  /** A fresh processing has begun since the failure, or one is on its way. */
  ghost predicate Paid(h: Hasher, s: State, d: Debt) {
    || (d.digest in s.started && s.started[d.digest] > d.ended)
    || Waiting(h, s, d.digest)
    || Retrying(h, s, d)
  }

  ghost predicate Inv(h: Hasher, s: State) {
    && Backed(h, s) && Dated(h, s)
    && forall d :: d in s.debts ==> Paid(h, s, d) && d.ended < s.clock
  }

  lemma {:induction false} WaitingStays(h: Hasher, s: State, a: Action, g: Hash)
    requires Enabled(s, a) && Waiting(h, s, g)
    ensures Waiting(h, Effect(h, s, a), g) || (a.Get? && Digest(h, a.e) == g)
  {
    var t := Effect(h, s, a);
    if id :| id in s.callbacks && Digest(h, s.callbacks[id]) == g {
      assert a != CallbackAdd(id) ==> id in t.callbacks && t.callbacks[id] == s.callbacks[id];
      assert a == CallbackAdd(id) ==> s.callbacks[id] in t.queue;
    } else if e :| e in s.queue && Digest(h, e) == g {
      assert e in t.queue || (a.Get? && a.e == e);
    } else {
      var w :| 0 <= w < |s.workers| && s.workers[w].Adding? && Digest(h, s.workers[w].e) == g;
      assert a != AddAgain(w) ==> t.workers[w] == s.workers[w];
      assert a == AddAgain(w) ==> s.workers[w].e in t.queue;
    }
  }

  lemma {:induction false} InFlightStays(h: Hasher, s: State, a: Action, g: Hash, since: nat)
    requires Enabled(s, a) && !a.TraceIdFails? && InFlight(h, s, g, since)
    ensures InFlight(h, Effect(h, s, a), g, since) || g !in Effect(h, s, a).items
  {
    var t := Effect(h, s, a);
    var w :| 0 <= w < |s.workers| && s.workers[w].Working? && Digest(h, s.workers[w].e) == g && s.workers[w].since > since;
    assert t.workers[w] == s.workers[w] || (a.Finish? && a.w == w);
  }

  lemma {:induction false} StepKeepsBacked(h: Hasher, s: State, a: Action)
    requires Enabled(s, a) && !a.TraceIdFails? && Backed(h, s) && Dated(h, s)
    ensures Backed(h, Effect(h, s, a))
  {
    var t := Effect(h, s, a);
    forall g | g in t.items
      ensures Waiting(h, t, g) || InFlight(h, t, g, t.items[g])
    {
      if g in s.items && s.items[g] == t.items[g] {
        if Waiting(h, s, g) {
          WaitingStays(h, s, a, g);
          if a.Get? && Digest(h, a.e) == g {
            assert t.workers[a.w] == Working(a.e, s.clock);
          }
        } else {
          InFlightStays(h, s, a, g, s.items[g]);
        }
      } else if a.Callback? {
        assert a.id in t.callbacks && t.callbacks[a.id] == a.e;
      } else {
        assert a.Store? && t.workers[a.w] == Adding(s.workers[a.w].e);
      }
    }
  }

  lemma {:induction false} StoredSinceStays(h: Hasher, s: State, a: Action, e: Event, t: nat)
    requires Enabled(s, a) && StoredSince(h, s, e, t) && t < s.clock
    ensures StoredSince(h, Effect(h, s, a).(clock := s.clock + 1), e, t)
  {
  }

  lemma {:induction false} PcStaysDated(h: Hasher, s: State, a: Action, pc: Pc)
    requires Enabled(s, a) && PcDated(h, s, pc)
    ensures PcDated(h, Effect(h, s, a).(clock := s.clock + 1), pc)
  {
    var t := Effect(h, s, a).(clock := s.clock + 1);
    if pc.Deleted? || pc.Checking? || pc.Loading? {
      StoredSinceStays(h, s, a, pc.e, pc.ended);
    }
    assert t.started == s.started || (a.Get? && t.started == s.started[Digest(h, a.e) := s.clock]);
  }

  lemma {:induction false} StepKeepsDated(h: Hasher, s: State, a: Action)
    requires Enabled(s, a) && Dated(h, s)
    ensures Dated(h, Effect(h, s, a).(clock := s.clock + 1))
  {
    var t := Effect(h, s, a).(clock := s.clock + 1);
    forall w | 0 <= w < |t.workers|
      ensures PcDated(h, t, t.workers[w])
    {
      PcStaysDated(h, s, a, s.workers[w]);
      MovedPcIsDated(h, s, a, w);
    }
  }

  lemma {:induction false} MovedPcIsDated(h: Hasher, s: State, a: Action, w: nat)
    requires Enabled(s, a) && w < |s.workers|
    requires PcDated(h, Effect(h, s, a).(clock := s.clock + 1), s.workers[w])
    ensures PcDated(h, Effect(h, s, a).(clock := s.clock + 1), Effect(h, s, a).workers[w])
  {
  }

  lemma {:induction false} StepKeepsPaid(h: Hasher, s: State, a: Action, d: Debt)
    requires Enabled(s, a) && Backed(h, s) && Dated(h, s) && d.ended < s.clock && Paid(h, s, d)
    ensures Paid(h, Effect(h, s, a), d)
  {
    var t := Effect(h, s, a);
    if d.digest in s.started && s.started[d.digest] > d.ended {
    } else if Waiting(h, s, d.digest) {
      WaitingStays(h, s, a, d.digest);
    } else {
      var w :| 0 <= w < |s.workers| && (s.workers[w].Loading? || s.workers[w].Storing?)
               && Digest(h, s.workers[w].e) == d.digest && s.workers[w].ended == d.ended;
      assert PcDated(h, s, s.workers[w]);
      if a == Load(w) && d.digest in s.items {
        FoundMeansFresh(h, s, w);
      } else {
        assert t.workers[w] == s.workers[w] || (a == Load(w) && t.workers[w].Storing?) || (a == Store(w) && t.workers[w].Adding?);
      }
    }
  }

  /** When `handleErr` leaves a failure to another event because it finds the
  digest, that event's processing began after the failed one ended, or is yet to begin. */
  lemma {:induction false} FoundMeansFresh(h: Hasher, s: State, w: nat)
    requires Backed(h, s) && Dated(h, s)
    requires w < |s.workers| && s.workers[w].Loading? && Digest(h, s.workers[w].e) in s.items
    ensures
      var g := Digest(h, s.workers[w].e);
      Waiting(h, s, g) || (InFlight(h, s, g, s.workers[w].ended) && g in s.started && s.started[g] > s.workers[w].ended)
  {
    var g := Digest(h, s.workers[w].e);
    assert PcDated(h, s, s.workers[w]);
    if !Waiting(h, s, g) {
      var v :| 0 <= v < |s.workers| && s.workers[v].Working? && Digest(h, s.workers[v].e) == g && s.workers[v].since > s.items[g];
      assert PcDated(h, s, s.workers[v]);
    }
  }

  lemma {:induction false} StepKeepsInv(h: Hasher, s: State, a: Action)
    requires Inv(h, s) && Enabled(s, a) && !a.TraceIdFails?
    ensures Inv(h, Step(h, s, a).value)
  {
    var u := Effect(h, s, a);
    var t := Step(h, s, a).value;
    StepKeepsBacked(h, s, a);
    StepKeepsDated(h, s, a);
    forall g | g in t.items
      ensures Waiting(h, t, g) || InFlight(h, t, g, t.items[g])
    {
      SameButForClock(h, u, t, g, t.items[g]);
    }
    forall d | d in t.debts
      ensures Paid(h, t, d) && d.ended < t.clock
    {
      if d in s.debts {
        StepKeepsPaid(h, s, a, d);
      } else {
        assert a.Check? && a.retry && u.workers[a.w] == Loading(s.workers[a.w].e, d.ended);
        assert PcDated(h, s, s.workers[a.w]);
        assert Retrying(h, u, d);
      }
      SameButForClock(h, u, t, d.digest, d.ended);
      assert Retrying(h, u, d) ==> Retrying(h, t, d);
    }
  }

  lemma {:induction false} SameButForClock(h: Hasher, u: State, t: State, g: Hash, since: nat)
    requires t == u.(clock := t.clock)
    ensures Waiting(h, u, g) == Waiting(h, t, g) && InFlight(h, u, g, since) == InFlight(h, t, g, since)
  {
  }

  ghost predicate Regular(acts: seq<Action>) {
    forall i :: 0 <= i < |acts| ==> !acts[i].TraceIdFails?
  }

  lemma {:induction false} RunKeepsInv(h: Hasher, workers: nat, acts: seq<Action>)
    requires Regular(acts) && Run(h, Init(workers), acts).Some?
    ensures Inv(h, Run(h, Init(workers), acts).value)
  {
    if acts == [] {
    } else {
      RunKeepsInv(h, workers, acts[..|acts| - 1]);
      StepKeepsInv(h, Run(h, Init(workers), acts[..|acts| - 1]).value, acts[|acts| - 1]);
    }
  }

  // ----- what follows -----------------------------------------------------

  /** Nothing is queued, no callback is under way and every worker is parked. */
  predicate Quiescent(s: State) {
    s.callbacks == map[] && s.queue == {} && forall w :: 0 <= w < |s.workers| ==> s.workers[w].Idle?
  }

  /** In every run a digest in the map has an event behind it that is about to
  be added, queued or in flight. */
  lemma {:induction false} StoredDigestsAreBacked(h: Hasher, workers: nat, acts: seq<Action>, g: Hash)
    requires Regular(acts) && Run(h, Init(workers), acts).Some?
    requires g in Run(h, Init(workers), acts).value.items
    ensures var s := Run(h, Init(workers), acts).value; Waiting(h, s, g) || InFlight(h, s, g, s.items[g])
  {
    RunKeepsInv(h, workers, acts);
  }

  lemma {:induction false} MapIsEmptyAtQuiescence(h: Hasher, workers: nat, acts: seq<Action>)
    requires Regular(acts) && Run(h, Init(workers), acts).Some?
    requires Quiescent(Run(h, Init(workers), acts).value)
    ensures Run(h, Init(workers), acts).value.items == map[]
  {
    RunKeepsInv(h, workers, acts);
  }

  /** Once things have come to rest, every failure below the retry limit has
  been followed by a processing, begun after it, of an event with its digest. */
  lemma {:induction false} NoFailureIsLost(h: Hasher, workers: nat, acts: seq<Action>, d: Debt)
    requires Regular(acts) && Run(h, Init(workers), acts).Some?
    requires
      var s := Run(h, Init(workers), acts).value;
      Quiescent(s) && d in s.debts
    ensures
      var s := Run(h, Init(workers), acts).value;
      d.digest in s.started && s.started[d.digest] > d.ended
  {
    RunKeepsInv(h, workers, acts);
  }

  // ----- the missing trace id ---------------------------------------------

  /** A digest in the map with no event of that digest anywhere. */
  ghost predicate Stuck(h: Hasher, s: State, g: Hash) {
    && g in s.items
    && (forall id :: id in s.callbacks ==> Digest(h, s.callbacks[id]) != g)
    && (forall e :: e in s.queue ==> Digest(h, e) != g)
    && (forall w :: 0 <= w < |s.workers| ==> s.workers[w].Idle? || Digest(h, s.workers[w].e) != g)
  }

  /** No event of this digest is anywhere but with worker `w`. */
  ghost predicate OnlyWith(h: Hasher, s: State, w: nat, g: Hash) {
    && (forall id :: id in s.callbacks ==> Digest(h, s.callbacks[id]) != g)
    && (forall e :: e in s.queue ==> Digest(h, e) != g)
    && (forall v :: 0 <= v < |s.workers| && v != w ==> s.workers[v].Idle? || Digest(h, s.workers[v].e) != g)
  }

  /** In any state, the exit without a trace id leaves the worker's digest stuck
  exactly if it is in the map and no other event carries it. */
  lemma {:induction false} TraceIdFailureSticks(h: Hasher, s: State, w: nat)
    requires w < |s.workers| && s.workers[w].Working?
    ensures
      var g := Digest(h, s.workers[w].e);
      Stuck(h, Step(h, s, TraceIdFails(w)).value, g) <==> g in s.items && OnlyWith(h, s, w, g)
  {
    var t, g := Step(h, s, TraceIdFails(w)).value, Digest(h, s.workers[w].e);
    assert t.workers[w].Idle?;
    assert forall v :: 0 <= v < |s.workers| && v != w ==> t.workers[v] == s.workers[v];
  }

  /** This happens: one callback and one worker are enough. */
  lemma {:induction false} TraceIdFailureHappens(h: Hasher, e: Event)
    ensures
      var acts := [Callback(0, e), CallbackAdd(0), Get(0, e), TraceIdFails(0)];
      var s := Run(h, Init(1), acts);
      s.Some? && Quiescent(s.value) && Stuck(h, s.value, Digest(h, e))
  {
    hide Run, Stuck;
    NoStep(h, Init(1));
    var a1, a2, a3, a4 := Callback(0, e), CallbackAdd(0), Get(0, e), TraceIdFails(0);
    var s0 := Init(1);
    var s1 := Step(h, s0, a1).value;
    var s2 := Step(h, s1, a2).value;
    var s3 := Step(h, s2, a3).value;
    assert s1.callbacks == map[0 := e] && s2.callbacks == map[] && s3.callbacks == map[];
    assert s2.queue == {e} && s3.queue == {};
    assert s3.workers == [Working(e, 2)];
    assert [] + [a1] == [a1] && [a1] + [a2] == [a1, a2] && [a1, a2] + [a3] == [a1, a2, a3];
    assert [a1, a2, a3] + [a4] == [a1, a2, a3, a4];
    RunExtends(h, s0, [], a1);
    RunExtends(h, s0, [a1], a2);
    RunExtends(h, s0, [a1, a2], a3);
    assert Run(h, s0, [a1, a2, a3]) == Some(s3);
    RunExtends(h, s0, [a1, a2, a3], a4);
    TraceIdFailureSticks(h, s3, 0);
  }

  lemma {:induction false} NoStep(h: Hasher, s: State)
    ensures Run(h, s, []) == Some(s)
  {
  }

  lemma {:induction false} RunExtends(h: Hasher, s: State, acts: seq<Action>, a: Action)
    requires Run(h, s, acts).Some?
    ensures Run(h, s, acts + [a]) == Step(h, Run(h, s, acts).value, a)
  {
    assert (acts + [a])[..|acts|] == acts;
  }

  /** From there on the callbacks swallow every event with that digest: unless
  one is added past the map, none is ever taken from the queue again. */
  lemma {:induction false} StuckForEver(h: Hasher, s: State, g: Hash, acts: seq<Action>)
    requires Stuck(h, s, g) && Run(h, s, acts).Some?
    requires forall i :: 0 <= i < |acts| && acts[i].DirectAdd? ==> Digest(h, acts[i].e) != g
    ensures
      var t := Run(h, s, acts).value;
      && Stuck(h, t, g)
      && (g in t.started <==> g in s.started) && (g in s.started ==> t.started[g] == s.started[g])
  {
    if acts == [] {
    } else {
      var a := acts[|acts| - 1];
      var r := Run(h, s, acts[..|acts| - 1]).value;
      StuckForEver(h, s, g, acts[..|acts| - 1]);
      StuckStep(h, r, g, a);
    }
  }

  lemma {:induction false} StuckStep(h: Hasher, s: State, g: Hash, a: Action)
    requires Stuck(h, s, g) && Enabled(s, a) && (a.DirectAdd? ==> Digest(h, a.e) != g)
    ensures
      var t := Step(h, s, a).value;
      && Stuck(h, t, g)
      && (g in t.started <==> g in s.started) && (g in s.started ==> t.started[g] == s.started[g])
  {
    var t := Step(h, s, a).value;
    forall w | 0 <= w < |t.workers|
      ensures t.workers[w].Idle? || Digest(h, t.workers[w].e) != g
    {
      assert t.workers[w] == s.workers[w] || t.workers[w].Idle? || a.Get? || t.workers[w].e == s.workers[w].e;
    }
  }
}
