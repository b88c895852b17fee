/** The queue as a concurrent protocol: adders, getters, the spin goroutine,
finishing workers and shutdown interleave at every point where the code does
not hold both locks. A run is a sequence of actions; the critical sections are
the functions of `QueueCore`, and the walk of `spin` is one action per item. */
module Rendezvous {
  import opened Items
  import opened Metrics
  import opened QueueCore
  import opened QueueRuns

  /** Where a worker is in `GetWithPriority` and `Done`. */
  datatype Getter =
    | Idle
    | Entered                  // saw the queue open
    | Announced                // has incremented the waiter count
    | Parked                   // has notified and blocks for an item
    | Holding(item: Item)
    | Finishing(item: Item)    // is inside Done, awaiting the lock

  datatype Spin =
    | Asleep
    | Awake                            // woken, awaiting the locks
    | Scanning(todo: seq<Item>)        // holds both locks
    | Sending(todo: seq<Item>, item: Item)
    | Exited

  datatype State = State(
    core: Core,
    waiters: nat,
    token: bool,                       // the one-slot wake-up channel
    timer: Option<Time>,
    spin: Spin,
    getters: map<nat, Getter>,
    adding: nat,                       // adds that saw the queue open and await the lock
    measuring: nat,                    // Len calls that await the lock
    shutdown: bool,
    done: bool,
    closing: nat,                      // ShutDown calls that won the compare-and-swap and have yet to close
    closes: nat,                       // how often the channel was closed
    clock: Time,
    lastScan: Time,                    // clock at the latest visit of an item
    removed: seq<Item>,                // history: items taken out of the queue
    received: seq<(nat, Item)>)        // history: items received, and by whom

  datatype Action =
    | Tick(now: Time)
    | AddEnter
    | AddRun(reqs: seq<Request>)
    | LenEnter
    | LenRun
    | GetEnter(g: nat)
    | GetAnnounce(g: nat)
    | GetNotify(g: nat)
    | GetLeave(g: nat)
    | DoneEnter(g: nat)
    | DoneRun(g: nat)
    | StrayDone(key: Key)              // a Done by someone who does not hold the key
    | SpinWake
    | SpinTimer
    | SpinLock
    | SpinVisit
    | SpinSend(g: nat)
    | SpinAbandon
    | SpinFinish
    | SpinExit
    | ShutFlag
    | ShutClose

  function Start(perPriority: bool, clock: Time): State {
    State(EmptyCore(perPriority), 0, false, None, Asleep, map[], 0, 0, false, false, 0, 0, clock, clock, [], [])
  }

  function At(s: State, g: nat): Getter {
    if g in s.getters then s.getters[g] else Idle
  }

  function Put(s: State, g: nat, v: Getter): State {
    s.(getters := s.getters[g := v])
  }

  /** Neither lock is held by the spin goroutine. */
  predicate Free(s: State) {
    !s.spin.Scanning? && !s.spin.Sending?
  }

  /** The next item of the walk. */
  function Visit(s: State): State
    requires s.spin.Scanning? && s.spin.todo != []
  {
    var x, rest := s.spin.todo[0], s.spin.todo[1..];
    var seen := s.(lastScan := s.clock);
    if !Ready(x, s.clock) then
      seen.(spin := Asleep, timer := x.readyAt)
    else
      var c := MarkReady(s.core, x, s.clock);
      if s.waiters == 0 || x.key in c.locked then
        seen.(spin := Scanning(rest), core := c)
      else
        seen.(spin := Sending(rest, x), core := Take(c, x, s.clock), waiters := s.waiters - 1, removed := s.removed + [x])
  }

  /** The state after the action, or None where the action cannot happen. */
  function Step(s: State, a: Action): Option<State> {
    match a
    case Tick(now) =>
      if now >= s.clock then Some(s.(clock := now)) else None
    case AddEnter =>
      if s.shutdown then Some(s) else Some(s.(adding := s.adding + 1))
    case AddRun(reqs) =>
      if s.adding > 0 && Free(s)
      then Some(s.(adding := s.adding - 1, core := AddAll(s.core, reqs), token := s.token || reqs != []))
      else None
    case LenEnter => Some(s.(measuring := s.measuring + 1))
    case LenRun =>
      if s.measuring > 0 && Free(s) then Some(s.(measuring := s.measuring - 1)) else None
    case GetEnter(g) =>
      if At(s, g).Idle? then Some(if s.shutdown then s else Put(s, g, Entered)) else None
    case GetAnnounce(g) =>
      if At(s, g).Entered? then Some(Put(s, g, Announced).(waiters := s.waiters + 1)) else None
    case GetNotify(g) =>
      if At(s, g).Announced? then Some(Put(s, g, Parked).(token := true)) else None
    case GetLeave(g) =>
      if At(s, g).Parked? && s.done then Some(Put(s, g, Idle)) else None
    case DoneEnter(g) =>
      if At(s, g).Holding? then Some(Put(s, g, Finishing(At(s, g).item))) else None
    case DoneRun(g) =>
      if At(s, g).Finishing? && Free(s)
      then Some(Put(s, g, Idle).(core := Release(s.core, At(s, g).item.key), token := true))
      else None
    case StrayDone(key) =>
      if Free(s) then Some(s.(core := Release(s.core, key), token := true)) else None
    case SpinWake =>
      if s.spin.Asleep? && s.token then Some(s.(spin := Awake, token := false, timer := None)) else None
    case SpinTimer =>
      if s.spin.Asleep? && s.timer.Some? && s.timer.value <= s.clock
      then Some(s.(spin := Awake, timer := None)) else None
    case SpinLock =>
      if s.spin.Awake? then Some(s.(spin := Scanning(s.core.tree), lastScan := s.clock)) else None
    case SpinVisit =>
      if s.spin.Scanning? && s.spin.todo != [] then Some(Visit(s)) else None
    case SpinSend(g) =>
      if s.spin.Sending? && At(s, g).Parked?
      then Some(Put(s, g, Holding(s.spin.item)).(spin := Scanning(s.spin.todo), received := s.received + [(g, s.spin.item)]))
      else None
    case SpinAbandon =>
      if s.spin.Sending? && s.done then Some(s.(spin := Asleep)) else None
    case SpinFinish =>
      if s.spin.Scanning? && s.spin.todo == [] then Some(s.(spin := Asleep)) else None
    case SpinExit =>
      if s.spin.Asleep? && s.done then Some(s.(spin := Exited)) else None
    case ShutFlag =>
      if s.shutdown then Some(s) else Some(s.(shutdown := true, closing := s.closing + 1))
    case ShutClose =>
      if s.closing > 0 then Some(s.(done := true, closing := s.closing - 1, closes := s.closes + 1)) else None
  }

  function Run(s: State, acts: seq<Action>): Option<State> {
    if acts == [] then Some(s)
    else
      var r := Run(s, acts[..|acts| - 1]);
      if r.None? then None else Step(r.value, acts[|acts| - 1])
  }

  // ----- the invariant ----------------------------------------------------

  ghost function Waiting(m: map<nat, Getter>): set<nat> {
    set g | g in m && (m[g].Announced? || m[g].Parked?)
  }

  ghost predicate SomeoneAnnounced(m: map<nat, Getter>) {
    exists g :: g in m && m[g].Announced?
  }

  /** No wake-up is pending or about to be sent. */
  ghost predicate Quiet(s: State) {
    !s.token && !SomeoneAnnounced(s.getters)
  }

  function InHandoff(s: State): nat { if s.spin.Sending? then 1 else 0 }

  /** The items the walk has yet to visit. */
  function Rest(s: State): seq<Item> {
    if s.spin.Scanning? || s.spin.Sending? then s.spin.todo else []
  }

  /** Queue, metrics and clock. */
  ghost predicate Sound(s: State) {
    && Agree(s.core)
    && s.core.metrics.latencies == |s.removed|
    && s.lastScan <= s.clock
  }

  /** The channel is closed by the one call that flipped the flag. */
  predicate ClosedOnce(s: State) {
    && (s.done <==> s.closes > 0)
    && s.closing + s.closes == (if s.shutdown then 1 else 0)
  }

  /** The walk has passed a prefix of the tree, all of it ready, and has the rest before it. */
  ghost predicate OnTrack(s: State) {
    !Free(s) ==>
      && |Rest(s)| <= |s.core.tree|
      && Rest(s) == s.core.tree[|s.core.tree| - |Rest(s)|..]
      && forall i :: 0 <= i < |s.core.tree| - |Rest(s)| ==> Ready(s.core.tree[i], s.lastScan)
  }

  /** Waiting getters are exactly the waiter count plus the item being handed over. */
  ghost predicate Conserved(s: State) {
    !s.done ==> |Waiting(s.getters)| == s.waiters + InHandoff(s)
  }

  /** Every item taken out was received by one getter, except the one in hand-off. */
  ghost predicate Delivered(s: State) {
    !s.done ==> s.removed == Received(s.received) + (if s.spin.Sending? then [s.spin.item] else [])
  }

  function Received(r: seq<(nat, Item)>): seq<Item> {
    if r == [] then [] else Received(r[..|r| - 1]) + [r[|r| - 1].1]
  }

  /** If getters wait and nothing is about to wake the goroutine, the items passed so far are all locked. */
  ghost predicate Exhausted(s: State) {
    !s.done && Quiet(s) && s.waiters > 0 ==>
      && (!Free(s) ==> forall i :: 0 <= i < |s.core.tree| - |Rest(s)| ==> s.core.tree[i].key in s.core.locked)
      && (s.spin.Asleep? ==> forall x :: x in s.core.tree && Ready(x, s.lastScan) ==> x.key in s.core.locked)
  }

  /** The timer is set for the earliest ready time after `now`, if there is one. */
  ghost predicate ArmedFor(t: seq<Item>, now: Time, timer: Option<Time>) {
    match timer
    case None => forall x :: x in t ==> Ready(x, now)
    case Some(due) =>
      && due > now
      && (exists x :: x in t && x.readyAt == timer)
      && (forall x :: x in t ==> Ready(x, now) || due <= x.readyAt.value)
  }

  ghost predicate Armed(s: State) {
    && (!s.spin.Asleep? && !s.spin.Exited? ==> s.timer.None?)
    && (!s.done && s.spin.Asleep? && !s.token ==> ArmedFor(s.core.tree, s.lastScan, s.timer))
    && (s.spin.Exited? ==> s.done)
  }

  ghost predicate Inv(s: State) {
    Sound(s) && ClosedOnce(s) && OnTrack(s) && Conserved(s) && Delivered(s) && Exhausted(s) && Armed(s)
  }

  // ----- each step keeps it -----------------------------------------------

  lemma {:induction false} MarkFacts(c: Core, x: Item, now: Time)
    requires Agree(c) && x in c.tree
    ensures
      var d := MarkReady(c, x, now);
      && Agree(d) && d.tree == c.tree && d.locked == c.locked && d.lockedPriority == c.lockedPriority
      && d.metrics.latencies == c.metrics.latencies
      && (x.readyAt.Some? ==> x.key in d.becameReady)
  {
    MarkReadyKeepsAgreement(c, x, now);
  }

  lemma {:induction false} TakeFacts(c: Core, n: nat, now: Time)
    requires Agree(c) && n < |c.tree| && c.tree[n].key !in c.locked
    requires c.tree[n].readyAt.Some? ==> c.tree[n].key in c.becameReady
    ensures
      var x := c.tree[n];
      var d := Take(c, x, now);
      && Agree(d) && d.tree == c.tree[..n] + c.tree[n + 1..]
      && d.locked == c.locked + {x.key} && d.lockedPriority == c.lockedPriority[x.key := x.priority]
      && d.metrics.latencies == c.metrics.latencies + 1
  {
    TakeKeepsAgreement(c, c.tree[n], now);
    DeleteAt(c.tree, n);
    TakenWasCounted(c, c.tree[n]);
  }

  lemma {:induction false} VisitFacts(s: State)
    requires Agree(s.core) && OnTrack(s) && s.spin.Scanning? && s.spin.todo != []
    ensures
      var c, x, n := s.core, s.spin.todo[0], |s.core.tree| - |s.spin.todo|;
      var c1 := MarkReady(c, x, s.clock);
      && c.tree[n] == x
      && Agree(c1) && c1.tree == c.tree && c1.locked == c.locked && c1.lockedPriority == c.lockedPriority
      && c1.metrics.latencies == c.metrics.latencies
      && (x.key !in c.locked ==>
            var d := Take(c1, x, s.clock);
            && Agree(d) && d.tree == c.tree[..n] + c.tree[n + 1..]
            && d.locked == c.locked + {x.key} && d.lockedPriority == c.lockedPriority[x.key := x.priority]
            && d.metrics.latencies == c.metrics.latencies + 1)
  {
    hide Agree, MarkReady, Take;
    var c, x, n := s.core, s.spin.todo[0], |s.core.tree| - |s.spin.todo|;
    assert c.tree[n..][0] == c.tree[n];
    MarkFacts(c, x, s.clock);
    if x.key !in c.locked {
      TakeFacts(MarkReady(c, x, s.clock), n, s.clock);
    }
  }

  lemma {:induction false} TakenWasCounted(c: Core, x: Item)
    requires Agree(c) && x in c.tree && (x.readyAt.Some? ==> x.key in c.becameReady)
    ensures x.key in c.metrics.addTimes
  {
    assert x.key in Counted(c);
  }

  lemma {:induction false} VisitKeepsSound(s: State)
    requires Sound(s) && OnTrack(s) && s.spin.Scanning? && s.spin.todo != []
    ensures Sound(Visit(s)) && OnTrack(Visit(s))
  {
    hide Agree, MarkReady, Take;
    VisitFacts(s);
    var c, x, n, t := s.core, s.spin.todo[0], |s.core.tree| - |s.spin.todo|, Visit(s);
    assert s.spin.todo[1..] == c.tree[n + 1..];
    if Ready(x, s.clock) {
      forall i | 0 <= i <= n ensures Ready(c.tree[i], s.clock) {
      }
      if t.spin.Sending? {
        assert t.core.tree[n..] == c.tree[n + 1..];
        assert forall i :: 0 <= i < n ==> t.core.tree[i] == c.tree[i];
      }
    }
  }

  /** Which actions touch what the locks protect. */
  lemma {:induction false} StepOnCore(s: State, a: Action)
    requires Step(s, a).Some?
    ensures
      var t := Step(s, a).value;
      && t.core == (match a
                    case AddRun(reqs) => AddAll(s.core, reqs)
                    case DoneRun(g) => if At(s, g).Finishing? then Release(s.core, At(s, g).item.key) else s.core
                    case StrayDone(key) => Release(s.core, key)
                    case _ => if a.SpinVisit? then t.core else s.core)
      && (a.DoneRun? ==> At(s, a.g).Finishing?)
      && (a.SpinVisit? ==> s.spin.Scanning? && s.spin.todo != [] && t == Visit(s))
      && (!a.SpinVisit? ==> t.removed == s.removed)
      && (a.SpinVisit? || t.clock >= s.clock)
      && (a.SpinVisit? || a.SpinLock? || t.lastScan == s.lastScan)
      && (a.SpinLock? ==> t.lastScan == t.clock)
  {
    hide AddAll, Release, Visit;
  }

  lemma {:induction false} StepKeepsSound(s: State, a: Action)
    requires Sound(s) && OnTrack(s) && Step(s, a).Some?
    ensures Sound(Step(s, a).value)
  {
    hide Agree, AddAll, Release, Visit, OnTrack, Step;
    StepOnCore(s, a);
    match a
    case AddRun(reqs) => AddAllKeepsAgreement(s.core, reqs); AddAllKeepsLatencies(s.core, reqs);
    case DoneRun(g) => ReleaseKeepsAgreement(s.core, At(s, g).item.key); ReleaseFacts(s.core, At(s, g).item.key);
    case StrayDone(key) => ReleaseKeepsAgreement(s.core, key); ReleaseFacts(s.core, key);
    case SpinVisit => VisitKeepsSound(s);
    case _ =>
  }

  lemma {:induction false} StepKeepsClosedOnce(s: State, a: Action)
    requires ClosedOnce(s) && Step(s, a).Some?
    ensures ClosedOnce(Step(s, a).value)
  {
    hide AddAll, Release, MarkReady, Take;
  }

  lemma {:induction false} StepKeepsTrack(s: State, a: Action)
    requires Sound(s) && OnTrack(s) && Step(s, a).Some?
    ensures OnTrack(Step(s, a).value)
  {
    hide Agree, Visit, Step;
    if a.SpinVisit? {
      StepOnCore(s, a);
      VisitKeepsSound(s);
    } else {
      StepOnWalk(s, a);
    }
  }

  /** What the actions other than a visit do to the walk. */
  lemma {:induction false} StepOnWalk(s: State, a: Action)
    requires Step(s, a).Some? && !a.SpinVisit?
    ensures
      var t := Step(s, a).value;
      || Free(t)
      || (a.SpinLock? && t.core == s.core && t.spin == Scanning(s.core.tree))
      || (!Free(s) && t.core == s.core && Rest(t) == Rest(s) && t.lastScan == s.lastScan)
  {
    hide AddAll, Release, Visit;
  }

  lemma {:induction false} AddAllKeepsLatencies(c: Core, reqs: seq<Request>)
    ensures AddAll(c, reqs).metrics.latencies == c.metrics.latencies
    ensures AddAll(c, reqs).lockedPriority == c.lockedPriority
    ensures AddAll(c, reqs).metrics.perPriority == c.metrics.perPriority
  {
    hide AddKey;
    if reqs == [] {
    } else {
      var before, r := AddAll(c, reqs[..|reqs| - 1]), reqs[|reqs| - 1];
      AddAllKeepsLatencies(c, reqs[..|reqs| - 1]);
      AddKeepsLatencies(before, r.key, r.priority, r.readyAt, r.now);
    }
  }

  lemma {:induction false} AddKeepsLatencies(c: Core, key: Key, priority: int, readyAt: Option<Time>, now: Time)
    ensures AddKey(c, key, priority, readyAt, now).metrics.latencies == c.metrics.latencies
    ensures AddKey(c, key, priority, readyAt, now).lockedPriority == c.lockedPriority
    ensures AddKey(c, key, priority, readyAt, now).metrics.perPriority == c.metrics.perPriority
  {
    hide Insert, Delete, Merged;
  }

  lemma {:induction false} ReleaseFacts(c: Core, key: Key)
    ensures Release(c, key).metrics.latencies == c.metrics.latencies
    ensures Release(c, key).metrics.perPriority == c.metrics.perPriority
    ensures Release(c, key).tree == c.tree && Release(c, key).locked == c.locked - {key}
    ensures Release(c, key).lockedPriority == c.lockedPriority - {key}
  {
  }

  lemma {:induction false} PutWaiting(s: State, g: nat, v: Getter)
    ensures Waiting(Put(s, g, v).getters) ==
              if v.Announced? || v.Parked? then Waiting(s.getters) + {g} else Waiting(s.getters) - {g}
    ensures g in Waiting(s.getters) <==> At(s, g).Announced? || At(s, g).Parked?
  {
  }

  /** Actions that move one getter. */
  predicate MovesGetter(a: Action) {
    a.GetEnter? || a.GetAnnounce? || a.GetNotify? || a.GetLeave? || a.DoneEnter? || a.DoneRun? || a.SpinSend?
  }

  lemma {:induction false} GetterMoves(s: State, a: Action)
    requires MovesGetter(a) && Step(s, a).Some?
    ensures
      var t := Step(s, a).value;
      t.getters == Put(s, a.g, At(t, a.g)).getters || (t.getters == s.getters && !Waits(At(s, a.g)))
  {
    hide Release;
  }

  lemma {:induction false} GetterCounts(s: State, a: Action)
    requires MovesGetter(a) && Step(s, a).Some?
    ensures
      var t := Step(s, a).value;
      var was, now := Waits(At(s, a.g)), Waits(At(t, a.g));
      && t.done == s.done
      && t.waiters == s.waiters + (if a.GetAnnounce? then 1 else 0)
      && InHandoff(t) == InHandoff(s) - (if a.SpinSend? then 1 else 0)
      && (a.GetLeave? ==> s.done)
      && (a.GetAnnounce? ==> !was && now) && (a.SpinSend? ==> was && !now)
      && (!a.GetAnnounce? && !a.SpinSend? && !a.GetLeave? ==> was == now)
  {
    hide Release;
  }

  predicate Waits(v: Getter) {
    v.Announced? || v.Parked?
  }

  lemma {:induction false} GetterStepKeepsConserved(s: State, a: Action)
    requires Conserved(s) && MovesGetter(a) && Step(s, a).Some?
    ensures Conserved(Step(s, a).value)
  {
    hide Step, Waiting;
    GetterMoves(s, a);
    GetterCounts(s, a);
    PutWaiting(s, a.g, At(Step(s, a).value, a.g));
    OneMoreOrLess(Waiting(s.getters), a.g);
  }

  lemma {:induction false} OneMoreOrLess(m: set<nat>, g: nat)
    ensures |m + {g}| == |m| + (if g in m then 0 else 1)
    ensures |m - {g}| == |m| - (if g in m then 1 else 0)
  {
    assert g in m ==> m + {g} == m;
    assert g !in m ==> m - {g} == m;
  }

  lemma {:induction false} StepKeepsConserved(s: State, a: Action)
    requires Conserved(s) && Step(s, a).Some?
    ensures Conserved(Step(s, a).value)
  {
    hide AddAll, Release, Waiting, MarkReady, Take;
    if MovesGetter(a) {
      GetterStepKeepsConserved(s, a);
    }
  }

  lemma {:induction false} StepKeepsDelivered(s: State, a: Action)
    requires Delivered(s) && Step(s, a).Some?
    ensures Delivered(Step(s, a).value)
  {
    hide Step, Visit;
    StepHistory(s, a);
    if a.SpinSend? {
      var r := s.received + [(a.g, s.spin.item)];
      assert r[..|r| - 1] == s.received;
    } else if a.SpinVisit? {
      VisitHistory(s);
    }
  }

  /** Which actions touch the record of what was taken out and received. */
  lemma {:induction false} StepHistory(s: State, a: Action)
    requires Step(s, a).Some?
    ensures
      var t := Step(s, a).value;
      && (s.done && !a.SpinVisit? ==> t.done)
      && (a.SpinVisit? ==> s.spin.Scanning? && s.spin.todo != [] && t == Visit(s))
      && (a.SpinSend? ==> s.spin.Sending? && t.spin.Scanning? && t.removed == s.removed && t.received == s.received + [(a.g, s.spin.item)])
      && (a.SpinAbandon? ==> t.done)
      && (!a.SpinVisit? && !a.SpinSend? ==> t.removed == s.removed && t.received == s.received)
      && (!a.SpinVisit? && !a.SpinSend? && !a.SpinAbandon? ==>
            t.spin.Sending? == s.spin.Sending? && (s.spin.Sending? ==> t.spin == s.spin))
  {
    hide AddAll, Release, Visit;
  }

  lemma {:induction false} VisitHistory(s: State)
    requires s.spin.Scanning? && s.spin.todo != []
    ensures
      var t := Visit(s);
      && t.received == s.received && t.done == s.done
      && t.removed == if t.spin.Sending? then s.removed + [t.spin.item] else s.removed
  {
    hide MarkReady, Take;
  }

  // ----- nothing wakes in vain, nothing sleeps too long --------------------

  lemma {:induction false} PutAnnounced(s: State, g: nat, v: Getter)
    requires SomeoneAnnounced(s.getters) && !At(s, g).Announced?
    ensures SomeoneAnnounced(Put(s, g, v).getters)
  {
    var h :| h in s.getters && s.getters[h].Announced?;
    assert h in Put(s, g, v).getters && Put(s, g, v).getters[h].Announced?;
  }

  lemma {:induction false} VisitKeepsExhausted(s: State)
    requires Inv(s) && s.spin.Scanning? && s.spin.todo != []
    ensures Exhausted(Visit(s)) && Armed(Visit(s))
  {
    hide Agree, MarkReady, Take;
    VisitFacts(s);
    var c, x, n, t := s.core, s.spin.todo[0], |s.core.tree| - |s.spin.todo|, Visit(s);
    if !Ready(x, s.clock) {
      StopFacts(c, s.clock, n);
      assert x in c.tree;
    } else if t.spin.Sending? {
      assert forall i :: 0 <= i < n ==> t.core.tree[i] == c.tree[i];
    }
  }

  /** Where the walk stops, everything before was seen ready and everything after comes later. */
  lemma {:induction false} StopFacts(c: Core, now: Time, n: nat)
    requires Agree(c) && n < |c.tree| && !Ready(c.tree[n], now)
    requires forall i :: 0 <= i < n ==> Ready(c.tree[i], now)
    ensures forall x :: x in c.tree ==> (Ready(x, now) && x in c.tree[..n]) || c.tree[n].readyAt.value <= x.readyAt.value
    ensures forall x :: x in c.tree && Ready(x, now) ==> exists i :: 0 <= i < n && c.tree[i] == x
  {
    forall x | x in c.tree
      ensures (Ready(x, now) && x in c.tree[..n]) || c.tree[n].readyAt.value <= x.readyAt.value
      ensures Ready(x, now) ==> exists i :: 0 <= i < n && c.tree[i] == x
    {
      var i :| 0 <= i < |c.tree| && c.tree[i] == x;
      if i < n { assert c.tree[..n][i] == x; }
      if i > n { assert Less(c.tree[n], c.tree[i]); }
    }
  }

  lemma {:induction false} OtherKeepsExhausted(s: State, a: Action)
    requires Exhausted(s) && Step(s, a).Some? && !a.SpinVisit? && !a.SpinFinish?
    ensures Exhausted(Step(s, a).value)
  {
    hide AddAll, Release, SomeoneAnnounced, Visit;
    NoRequests(s.core);
    if a.GetAnnounce? {
      NowAnnounced(s, a.g);
    } else if MovesGetter(a) && SomeoneAnnounced(s.getters) && !At(s, a.g).Announced? {
      PutAnnounced(s, a.g, At(Step(s, a).value, a.g));
    }
  }

  lemma {:induction false} OtherKeepsArmed(s: State, a: Action)
    requires Armed(s) && Step(s, a).Some? && !a.SpinVisit? && !a.SpinFinish?
    ensures Armed(Step(s, a).value)
  {
    hide AddAll, Release, Visit, ArmedFor;
    NoRequests(s.core);
    if a.DoneRun? {
      ReleaseFacts(s.core, At(s, a.g).item.key);
    }
  }

  lemma {:induction false} NoRequests(c: Core)
    ensures AddAll(c, []) == c
  {
  }

  lemma {:induction false} StepKeepsExhausted(s: State, a: Action)
    requires Inv(s) && Step(s, a).Some?
    ensures Exhausted(Step(s, a).value) && Armed(Step(s, a).value)
  {
    hide Exhausted, Armed, Step, Sound, OnTrack, Conserved, Delivered, ClosedOnce;
    if a.SpinVisit? {
      StepOnCore(s, a);
      VisitKeepsExhausted(s);
    } else if a.SpinFinish? {
      FinishStep(s);
      FinishKeepsExhausted(s);
    } else {
      OtherKeepsExhausted(s, a);
      OtherKeepsArmed(s, a);
    }
  }

  lemma {:induction false} FinishStep(s: State)
    requires Step(s, SpinFinish).Some?
    ensures s.spin.Scanning? && s.spin.todo == [] && Step(s, SpinFinish).value == s.(spin := Asleep)
  {
  }

  lemma {:induction false} NowAnnounced(s: State, g: nat)
    ensures SomeoneAnnounced(Put(s, g, Announced).getters)
  {
    assert Put(s, g, Announced).getters[g].Announced?;
  }

  lemma {:induction false} FinishKeepsExhausted(s: State)
    requires Inv(s) && s.spin.Scanning? && s.spin.todo == []
    ensures Exhausted(s.(spin := Asleep)) && Armed(s.(spin := Asleep))
  {
    hide Agree, SomeoneAnnounced;
    forall x | x in s.core.tree
      ensures Ready(x, s.lastScan)
      ensures !s.done && Quiet(s) && s.waiters > 0 ==> x.key in s.core.locked
    {
      var i :| 0 <= i < |s.core.tree| && s.core.tree[i] == x;
    }
  }

  lemma {:induction false} StepKeepsInv(s: State, a: Action)
    requires Inv(s) && Step(s, a).Some?
    ensures Inv(Step(s, a).value)
  {
    hide Sound, ClosedOnce, OnTrack, Conserved, Delivered, Exhausted, Armed, Step;
    StepKeepsSound(s, a);
    StepKeepsClosedOnce(s, a);
    StepKeepsTrack(s, a);
    StepKeepsConserved(s, a);
    StepKeepsDelivered(s, a);
    StepKeepsExhausted(s, a);
  }

  lemma {:induction false} StartHasInv(perPriority: bool, clock: Time)
    ensures Inv(Start(perPriority, clock))
  {
    EmptyAgrees(perPriority);
    assert Waiting(map[]) == {};
  }

  /** The invariant holds in every state of every run. */
  lemma {:induction false} RunKeepsInv(perPriority: bool, clock: Time, acts: seq<Action>)
    requires Run(Start(perPriority, clock), acts).Some?
    ensures Inv(Run(Start(perPriority, clock), acts).value)
  {
    hide Inv, Step, Start;
    if acts == [] {
      StartHasInv(perPriority, clock);
    } else {
      RunKeepsInv(perPriority, clock, acts[..|acts| - 1]);
      StepKeepsInv(Run(Start(perPriority, clock), acts[..|acts| - 1]).value, acts[|acts| - 1]);
    }
  }

  // ----- what it means ----------------------------------------------------

  /** Some item could be handed to a waiting getter right now. */
  ghost predicate WorkForWaiter(s: State) {
    s.waiters > 0 && exists x :: x in s.core.tree && Ready(x, s.clock) && x.key !in s.core.locked
  }

  /** No lost wake-up: whenever the goroutine sleeps in an open queue although
  a getter waits and an unlocked item is ready, it has a wake-up pending (a
  token, or a timer that is due), or a getter is about to send one. */
  lemma {:induction false} NoLostWakeUp(perPriority: bool, clock: Time, acts: seq<Action>)
    requires Run(Start(perPriority, clock), acts).Some?
    ensures
      var s := Run(Start(perPriority, clock), acts).value;
      !s.done && s.spin.Asleep? && WorkForWaiter(s) ==>
        Step(s, SpinWake).Some? || Step(s, SpinTimer).Some? || SomeoneAnnounced(s.getters)
  {
    hide Start, Run;
    RunKeepsInv(perPriority, clock, acts);
    var s := Run(Start(perPriority, clock), acts).value;
    if !s.done && s.spin.Asleep? && WorkForWaiter(s) && Quiet(s) {
      var x :| x in s.core.tree && Ready(x, s.clock) && x.key !in s.core.locked;
      assert !Ready(x, s.lastScan);
    }
  }

  /** Between wake-ups the timer is armed for the earliest future ready time. */
  lemma {:induction false} TimerCoversTheFuture(perPriority: bool, clock: Time, acts: seq<Action>)
    requires Run(Start(perPriority, clock), acts).Some?
    ensures
      var s := Run(Start(perPriority, clock), acts).value;
      !s.done && s.spin.Asleep? && !s.token ==> ArmedFor(s.core.tree, s.lastScan, s.timer)
  {
    RunKeepsInv(perPriority, clock, acts);
  }

  /** Hand-off conservation: until shutdown, the getters that announced
  themselves and were not served are the waiter count plus the item in
  hand-off, so a hand-off always has a getter to take it; and the items taken
  out of the queue are, in order, the items received, plus the one in hand-off. */
  lemma {:induction false} HandOffsAreConserved(perPriority: bool, clock: Time, acts: seq<Action>)
    requires Run(Start(perPriority, clock), acts).Some?
    ensures
      var s := Run(Start(perPriority, clock), acts).value;
      !s.done ==>
        && |Waiting(s.getters)| == s.waiters + InHandoff(s)
        && (s.spin.Sending? ==> exists g :: g in Waiting(s.getters))
        && s.removed == Received(s.received) + (if s.spin.Sending? then [s.spin.item] else [])
  {
    RunKeepsInv(perPriority, clock, acts);
    var s := Run(Start(perPriority, clock), acts).value;
    if !s.done && s.spin.Sending? {
      assert Waiting(s.getters) != {};
    }
  }

  /** In every run the metrics agree with the queue: per-priority depths count
  the ready items, the time maps name the counted and the locked keys, and
  adds, hand-outs and completions balance. */
  lemma {:induction false} MetricsAgreeInEveryRun(perPriority: bool, clock: Time, acts: seq<Action>)
    requires Run(Start(perPriority, clock), acts).Some?
    ensures
      var s := Run(Start(perPriority, clock), acts).value;
      var c, g := s.core, s.core.metrics;
      && Agree(c)
      && c.becameReady <= c.items.Keys
      && g.perPriority == perPriority
      && (perPriority ==>
            forall p :: Depth(g, p) == |set k | k in c.items && (c.items[k].readyAt.None? || k in c.becameReady) && c.items[k].priority == p|)
      && (!perPriority ==> Depth(g, 0) == |set k | k in c.items && (c.items[k].readyAt.None? || k in c.becameReady)|)
      && g.addTimes.Keys == (set k | k in c.items && (c.items[k].readyAt.None? || k in c.becameReady))
      && g.startTimes.Keys == c.locked
      && g.latencies == |s.removed|
      && g.adds == |s.removed| + |g.addTimes.Keys|
      && g.works == |s.removed| - |c.locked|
  {
    hide Start, Run;
    RunKeepsInv(perPriority, clock, acts);
    ProviderStays(perPriority, clock, acts);
    CountsSpelledOut(Run(Start(perPriority, clock), acts).value.core);
  }

  lemma {:induction false} CountsSpelledOut(c: Core)
    requires Agree(c)
    ensures
      var g := c.metrics;
      && (g.perPriority ==>
            forall p :: Depth(g, p) == |set k | k in c.items && (c.items[k].readyAt.None? || k in c.becameReady) && c.items[k].priority == p|)
      && (!g.perPriority ==> Depth(g, 0) == |set k | k in c.items && (c.items[k].readyAt.None? || k in c.becameReady)|)
      && g.addTimes.Keys == (set k | k in c.items && (c.items[k].readyAt.None? || k in c.becameReady))
  {
    hide Indexed, Depth;
    var g := c.metrics;
    var counted := set k | k in c.items && (c.items[k].readyAt.None? || k in c.becameReady);
    assert Counted(c) == counted;
    if g.perPriority {
      forall p
        ensures Depth(g, p) ==
          |set k | k in c.items && (c.items[k].readyAt.None? || k in c.becameReady) && c.items[k].priority == p|
      {
        assert CountedAt(c, p) ==
          set k | k in c.items && (c.items[k].readyAt.None? || k in c.becameReady) && c.items[k].priority == p;
      }
    } else {
      assert CountedAt(c, 0) == counted;
    }
  }

  lemma {:induction false} ProviderStays(perPriority: bool, clock: Time, acts: seq<Action>)
    requires Run(Start(perPriority, clock), acts).Some?
    ensures Run(Start(perPriority, clock), acts).value.core.metrics.perPriority == perPriority
  {
    hide Step, Visit, AddAll, Release;
    if acts == [] {
    } else {
      var s, a := Run(Start(perPriority, clock), acts[..|acts| - 1]).value, acts[|acts| - 1];
      ProviderStays(perPriority, clock, acts[..|acts| - 1]);
      StepOnCore(s, a);
      if a.AddRun? {
        AddAllKeepsLatencies(s.core, a.reqs);
      } else if a.SpinVisit? {
        VisitKeepsProvider(s);
      } else if a.DoneRun? {
        ReleaseFacts(s.core, At(s, a.g).item.key);
      } else if a.StrayDone? {
        ReleaseFacts(s.core, a.key);
      }
    }
  }

  lemma {:induction false} VisitKeepsProvider(s: State)
    requires s.spin.Scanning? && s.spin.todo != []
    ensures Visit(s).core.metrics.perPriority == s.core.metrics.perPriority
  {
    hide MarkReady, Take;
    ItemKeepsProvider(s.core, s.spin.todo[0], s.clock);
    ItemKeepsProvider(MarkReady(s.core, s.spin.todo[0], s.clock), s.spin.todo[0], s.clock);
  }

  lemma {:induction false} ItemKeepsProvider(c: Core, x: Item, now: Time)
    ensures MarkReady(c, x, now).metrics.perPriority == c.metrics.perPriority
    ensures Take(c, x, now).metrics.perPriority == c.metrics.perPriority
  {
    hide Delete;
  }

  // ----- one holder per key -----------------------------------------------

  predicate HasItem(v: Getter) {
    v.Holding? || v.Finishing?
  }

  ghost predicate Holds(m: map<nat, Getter>, g: nat, k: Key) {
    g in m && HasItem(m[g]) && m[g].item.key == k
  }

  /** The key is locked for this item. */
  ghost predicate LockedFor(c: Core, x: Item) {
    x.key in c.lockedPriority && c.lockedPriority[x.key] == x.priority
  }

  /** Locks and holders match one to one: what is held is locked at the
  priority it was handed out with, no two workers hold one key, and until
  shutdown no key is locked without a holder or a pending hand-off. */
  ghost predicate Exclusive(s: State) {
    var m := s.getters;
    && (forall g :: g in m && HasItem(m[g]) ==> LockedFor(s.core, m[g].item))
    && (forall g, h, k :: Holds(m, g, k) && Holds(m, h, k) ==> g == h)
    && (s.spin.Sending? ==> LockedFor(s.core, s.spin.item) && forall g :: !Holds(m, g, s.spin.item.key))
    && (!s.done ==> forall k :: k in s.core.locked ==>
          (s.spin.Sending? && s.spin.item.key == k) || exists g :: Holds(m, g, k))
  }

  lemma {:induction false} PutKeepsHolds(s: State, g: nat, v: Getter)
    ensures forall h, k :: h != g ==> (Holds(Put(s, g, v).getters, h, k) <==> Holds(s.getters, h, k))
    ensures forall k :: Holds(Put(s, g, v).getters, g, k) <==> HasItem(v) && v.item.key == k
  {
  }

  lemma {:induction false} VisitKeepsExclusive(s: State)
    requires Inv(s) && Exclusive(s) && s.spin.Scanning? && s.spin.todo != []
    ensures Exclusive(Visit(s))
  {
    hide Agree, MarkReady, Take, Conserved, Delivered, Exhausted, Armed;
    VisitFacts(s);
    assert s.core.locked == s.core.lockedPriority.Keys by { LockedAreKeys(s.core); }
    var t := Visit(s);
    assert forall g, k :: Holds(s.getters, g, k) ==> k in s.core.locked;
    forall k | !t.done && k in s.core.locked ensures exists h :: Holds(t.getters, h, k) {
      var h :| Holds(s.getters, h, k);
      assert Holds(t.getters, h, k);
    }
  }

  lemma {:induction false} LockedAreKeys(c: Core)
    requires Agree(c)
    ensures c.locked == c.lockedPriority.Keys
  {
  }

  lemma {:induction false} SendKeepsExclusive(s: State, g: nat)
    requires Exclusive(s) && Step(s, SpinSend(g)).Some?
    ensures Exclusive(Step(s, SpinSend(g)).value)
  {
    var t := Step(s, SpinSend(g)).value;
    var x := s.spin.item;
    PutKeepsHolds(s, g, Holding(x));
    assert forall k :: !Holds(s.getters, g, k);
    forall k | !t.done && k in t.core.locked ensures exists h :: Holds(t.getters, h, k) {
      if k == x.key {
        assert Holds(t.getters, g, k);
      } else {
        var h :| Holds(s.getters, h, k);
        assert Holds(t.getters, h, k);
      }
    }
  }

  lemma {:induction false} DoneStep(s: State, g: nat)
    requires Step(s, DoneRun(g)).Some?
    ensures At(s, g).Finishing? && Free(s)
    ensures Step(s, DoneRun(g)).value == Put(s, g, Idle).(core := Release(s.core, At(s, g).item.key), token := true)
  {
    hide Release;
  }

  lemma {:induction false} ReleaseKeepsExclusive(s: State, g: nat)
    requires Agree(s.core) && Exclusive(s) && Step(s, DoneRun(g)).Some?
    ensures Exclusive(Step(s, DoneRun(g)).value)
  {
    hide Agree, Release, Step;
    DoneStep(s, g);
    var t := Step(s, DoneRun(g)).value;
    var x := At(s, g).item;
    ReleaseFacts(s.core, x.key);
    LockedAreKeys(s.core);
    assert Holds(s.getters, g, x.key);
    PutKeepsHolds(s, g, Idle);
    forall h | h in t.getters && HasItem(t.getters[h]) ensures LockedFor(t.core, t.getters[h].item) {
      assert Holds(t.getters, h, t.getters[h].item.key);
      assert LockedFor(s.core, s.getters[h].item);
    }
    forall k | !t.done && k in t.core.locked ensures exists h :: Holds(t.getters, h, k) {
      var h :| Holds(s.getters, h, k);
      assert Holds(t.getters, h, k);
    }
  }

  /** Moving a getter that neither gains nor loses an item. */
  lemma {:induction false} MoveKeepsExclusive(s: State, g: nat, v: Getter)
    requires Exclusive(s)
    requires HasItem(At(s, g)) <==> HasItem(v)
    requires HasItem(v) ==> v.item == At(s, g).item
    ensures Exclusive(Put(s, g, v))
  {
    var t := Put(s, g, v);
    PutKeepsHolds(s, g, v);
    assert forall h, k :: Holds(t.getters, h, k) <==> Holds(s.getters, h, k);
    forall k | !t.done && k in t.core.locked && !(t.spin.Sending? && t.spin.item.key == k) ensures exists h :: Holds(t.getters, h, k) {
      var h :| Holds(s.getters, h, k);
      assert Holds(t.getters, h, k);
    }
  }

  lemma {:induction false} StepKeepsExclusive(s: State, a: Action)
    requires Inv(s) && Exclusive(s) && Step(s, a).Some? && !a.StrayDone?
    ensures Exclusive(Step(s, a).value)
  {
    hide Agree, Visit, AddAll, Release, Holds, LockedFor, Conserved, Delivered, Exhausted, Armed;
    match a
    case AddRun(reqs) => AddAllKeepsAgreement(s.core, reqs); AddAllKeepsLatencies(s.core, reqs); LockedForFrame(s.core, AddAll(s.core, reqs));
    case GetEnter(g) => MoveKeepsExclusive(s, g, Entered);
    case GetAnnounce(g) => MoveKeepsExclusive(s, g, Announced);
    case GetNotify(g) => MoveKeepsExclusive(s, g, Parked);
    case GetLeave(g) => MoveKeepsExclusive(s, g, Idle);
    case DoneEnter(g) => MoveKeepsExclusive(s, g, Finishing(At(s, g).item));
    case DoneRun(g) => ReleaseKeepsExclusive(s, g);
    case SpinVisit => VisitKeepsExclusive(s);
    case SpinSend(g) => SendKeepsExclusive(s, g);
    case _ =>
  }

  lemma {:induction false} LockedForFrame(c: Core, d: Core)
    requires c.lockedPriority == d.lockedPriority
    ensures forall x :: LockedFor(c, x) == LockedFor(d, x)
  {
  }

  /** In every run in which only the holder of a key calls `Done`, no key is
  handed out again before its `Done`: at most one worker holds it, it stays
  locked at its priority meanwhile, and no key stays locked unheld. */
  lemma {:induction false} KeysAreHeldOnce(perPriority: bool, clock: Time, acts: seq<Action>)
    requires Run(Start(perPriority, clock), acts).Some?
    requires forall i :: 0 <= i < |acts| ==> !acts[i].StrayDone?
    ensures Exclusive(Run(Start(perPriority, clock), acts).value)
  {
    hide Inv, Step;
    if acts != [] {
      var before := acts[..|acts| - 1];
      KeysAreHeldOnce(perPriority, clock, before);
      RunKeepsInv(perPriority, clock, before);
      StepKeepsExclusive(Run(Start(perPriority, clock), before).value, acts[|acts| - 1]);
    }
  }

  // ----- shutdown ---------------------------------------------------------

  /** How many own steps the goroutine needs before it gives up the locks. */
  function Burden(s: State): nat {
    match s.spin
    case Scanning(todo) => 2 * |todo| + 1
    case Sending(todo, _) => 2 * |todo| + 2
    case _ => 0
  }

  /** The goroutine's next step while it holds the locks of a closed queue. */
  function NextSpin(s: State): Action
    requires !Free(s)
  {
    if s.spin.Sending? then SpinAbandon else if s.spin.todo == [] then SpinFinish else SpinVisit
  }

  /** Shutdown cannot wedge. In every state after the channel is closed: the
  goroutine, if it holds the locks, can always take a step that brings it
  closer to releasing them, and no other actor's step sets it back; once the
  locks are free every pending add, Len and Done can go through; a parked getter can
  leave at once; and the channel was closed exactly once. */
  lemma {:induction false} ShutdownNeverWedges(perPriority: bool, clock: Time, acts: seq<Action>, a: Action, g: nat, reqs: seq<Request>)
    requires Run(Start(perPriority, clock), acts).Some?
    requires Run(Start(perPriority, clock), acts).value.done
    ensures
      var s := Run(Start(perPriority, clock), acts).value;
      && (!Free(s) ==> Step(s, NextSpin(s)).Some? && Burden(Step(s, NextSpin(s)).value) < Burden(s))
      && (!Free(s) && Step(s, a).Some? ==> Burden(Step(s, a).value) <= Burden(s))
      && (Free(s) && At(s, g).Finishing? ==> Step(s, DoneRun(g)).Some?)
      && (Free(s) && s.adding > 0 ==> Step(s, AddRun(reqs)).Some?)
      && (Free(s) && s.measuring > 0 ==> Step(s, LenRun).Some?)
      && (At(s, g).Parked? ==> Step(s, GetLeave(g)).Some?)
      && s.closes == 1 && Step(s, ShutClose).None?
  {
    hide Start, Run, AddAll, Release, MarkReady, Take, Agree;
    RunKeepsInv(perPriority, clock, acts);
  }

  /** From any state of a closed queue the goroutine alone frees the locks within `Burden` steps. */
  lemma {:induction false} LocksComeFree(s: State) returns (acts: seq<Action>)
    requires s.done
    ensures |acts| <= Burden(s) && (forall i :: 0 <= i < |acts| ==> acts[i] in {SpinVisit, SpinAbandon, SpinFinish})
    ensures Run(s, acts).Some? && Free(Run(s, acts).value)
    decreases Burden(s)
  {
    hide MarkReady, Take;
    acts := [];
    if !Free(s) {
      var t := Step(s, NextSpin(s)).value;
      var rest := LocksComeFree(t);
      acts := [NextSpin(s)] + rest;
      RunFirst(s, NextSpin(s), rest);
    }
  }

  lemma {:induction false} RunFirst(s: State, a: Action, rest: seq<Action>)
    requires Step(s, a).Some?
    ensures Run(s, [a] + rest) == Run(Step(s, a).value, rest)
  {
    hide Step;
    if rest == [] {
      assert ([a] + rest)[..0] == [];
    } else {
      var n := |rest| - 1;
      RunFirst(s, a, rest[..n]);
      assert ([a] + rest)[..n + 1] == [a] + rest[..n];
    }
  }

  /** A getter that comes after shutdown never gets as far as waiting. */
  lemma {:induction false} LateGettersStayOut(s: State, acts: seq<Action>, g: nat)
    requires s.shutdown && At(s, g).Idle? && Run(s, acts).Some?
    ensures Run(s, acts).value.shutdown && At(Run(s, acts).value, g).Idle?
  {
    hide Step;
    if acts == [] {
    } else {
      LateGettersStayOut(s, acts[..|acts| - 1], g);
      LateStep(Run(s, acts[..|acts| - 1]).value, acts[|acts| - 1], g);
    }
  }

  lemma {:induction false} LateStep(s: State, a: Action, g: nat)
    requires s.shutdown && Step(s, a).Some?
    ensures
      var t := Step(s, a).value;
      && t.shutdown && (At(s, g).Idle? ==> At(t, g).Idle?) && t.adding <= s.adding
      && (a.AddRun? ==> s.adding > 0)
  {
    hide AddAll, Release, MarkReady, Take;
  }

  /** Once shutdown has begun and the adds that saw the queue open are through, nothing is added any more. */
  lemma {:induction false} LateAddsAreDropped(s: State, acts: seq<Action>)
    requires s.shutdown && s.adding == 0 && Run(s, acts).Some?
    ensures
      var t := Run(s, acts).value;
      t.shutdown && t.adding == 0 && t.core.items.Keys <= s.core.items.Keys && t.core.counter == s.core.counter
  {
    hide Step, Release, Visit;
    if acts == [] {
    } else {
      var r, a := Run(s, acts[..|acts| - 1]).value, acts[|acts| - 1];
      LateAddsAreDropped(s, acts[..|acts| - 1]);
      LateStep(r, a, 0);
      StepOnCore(r, a);
      if a.SpinVisit? {
        VisitAddsNothing(r);
      } else if a.DoneRun? {
        ReleaseAddsNothing(r.core, At(r, a.g).item.key);
      } else if a.StrayDone? {
        ReleaseAddsNothing(r.core, a.key);
      }
    }
  }

  lemma {:induction false} VisitAddsNothing(s: State)
    requires s.spin.Scanning? && s.spin.todo != []
    ensures Visit(s).core.items.Keys <= s.core.items.Keys && Visit(s).core.counter == s.core.counter
  {
    hide MarkReady, Take;
    ItemAddsNothing(s.core, s.spin.todo[0], s.clock);
    ItemAddsNothing(MarkReady(s.core, s.spin.todo[0], s.clock), s.spin.todo[0], s.clock);
  }

  lemma {:induction false} ItemAddsNothing(c: Core, x: Item, now: Time)
    ensures MarkReady(c, x, now).items == c.items && MarkReady(c, x, now).counter == c.counter
    ensures Take(c, x, now).items.Keys <= c.items.Keys && Take(c, x, now).counter == c.counter
  {
    hide Delete, Got, Added;
  }

  lemma {:induction false} ReleaseAddsNothing(c: Core, key: Key)
    ensures Release(c, key).items == c.items && Release(c, key).counter == c.counter
  {
  }
}
