/** The digest map, the queue and the retries read off the actions of a run alone. */
module Accounts {
  import opened Items
  import opened Events
  import opened Dedup

  /** The state before the i-th action. */
  function At(h: Hasher, s: State, acts: seq<Action>, i: nat): (r: Option<State>)
    requires i <= |acts|
  {
    Run(h, s, acts[..i])
  }

  lemma {:induction false} RunPrefix(h: Hasher, s: State, acts: seq<Action>, i: nat)
    requires Run(h, s, acts).Some? && i <= |acts|
    ensures At(h, s, acts, i).Some?
    ensures i < |acts| ==> At(h, s, acts, i + 1) == Step(h, At(h, s, acts, i).value, acts[i])
    ensures forall j :: 0 <= j <= i ==> At(h, s, acts[..i], j) == At(h, s, acts, j)
    decreases |acts|
  {
    hide Step;
    assert forall j :: 0 <= j <= i ==> acts[..i][..j] == acts[..j];
    var n := |acts| - 1;
    if i == |acts| {
      assert acts[..i] == acts;
    } else {
      RunPrefix(h, s, acts[..n], i);
      assert acts[..n][..i] == acts[..i];
      if i == n {
        assert acts[..i + 1] == acts;
      } else {
        assert acts[..n][..i + 1] == acts[..i + 1];
      }
    }
  }

  // ----- the map and the queue --------------------------------------------

  /** The worker that takes the action processes an event of this digest. */
  predicate OnDigest(h: Hasher, s: State, w: nat, g: Hash) {
    w < |s.workers| && !s.workers[w].Idle? && Digest(h, s.workers[w].e) == g
  }

  /** The last action about a digest was to offer it or to requeue it, and not to finish it. */
  predicate LastStored(h: Hasher, s: State, acts: seq<Action>, g: Hash) {
    if acts == [] || Run(h, s, acts[..|acts| - 1]).None? then false
    else
      var before, a := acts[..|acts| - 1], acts[|acts| - 1];
      var r := Run(h, s, before).value;
      if (a.Callback? && Digest(h, a.e) == g) || (a.Store? && OnDigest(h, r, a.w, g)) then true
      else if a.Finish? && OnDigest(h, r, a.w, g) then false
      else LastStored(h, s, before, g)
  }

  /** In every run a digest is in the map exactly if an event with it was offered
  or requeued, and none has finished being processed since. */
  lemma {:induction false} MapFollowsActions(h: Hasher, workers: nat, acts: seq<Action>, g: Hash)
    requires Run(h, Init(workers), acts).Some?
    ensures g in Run(h, Init(workers), acts).value.items <==> LastStored(h, Init(workers), acts, g)
  {
    hide Step, OnDigest;
    if acts == [] {
    } else {
      MapFollowsActions(h, workers, acts[..|acts| - 1], g);
      StepOnMap(h, Run(h, Init(workers), acts[..|acts| - 1]).value, acts[|acts| - 1], g);
    }
  }

  lemma {:induction false} StepOnMap(h: Hasher, s: State, a: Action, g: Hash)
    requires Step(h, s, a).Some?
    ensures g in Step(h, s, a).value.items <==>
      || (a.Callback? && Digest(h, a.e) == g)
      || (a.Store? && OnDigest(h, s, a.w, g))
      || (g in s.items && !(a.Finish? && OnDigest(h, s, a.w, g)))
  {
  }

  /** The action adds the event to the queue. */
  predicate AddsEvent(s: State, a: Action, e: Event) {
    || a == DirectAdd(e)
    || (a.CallbackAdd? && a.id in s.callbacks && s.callbacks[a.id] == e)
    || (a.AddAgain? && a.w < |s.workers| && s.workers[a.w] == Adding(e))
  }

  predicate LastAdded(h: Hasher, s: State, acts: seq<Action>, e: Event) {
    if acts == [] || Run(h, s, acts[..|acts| - 1]).None? then false
    else
      var before, a := acts[..|acts| - 1], acts[|acts| - 1];
      if AddsEvent(Run(h, s, before).value, a, e) then true
      else if a.Get? && a.e == e then false
      else LastAdded(h, s, before, e)
  }

  /** In every run an event is queued exactly if it was added and not taken since:
  nothing is lost, and nothing is taken twice for one add. */
  lemma {:induction false} QueueFollowsActions(h: Hasher, workers: nat, acts: seq<Action>, e: Event)
    requires Run(h, Init(workers), acts).Some?
    ensures e in Run(h, Init(workers), acts).value.queue <==> LastAdded(h, Init(workers), acts, e)
  {
    hide Step, AddsEvent;
    if acts == [] {
    } else {
      QueueFollowsActions(h, workers, acts[..|acts| - 1], e);
      StepOnQueue(h, Run(h, Init(workers), acts[..|acts| - 1]).value, acts[|acts| - 1], e);
    }
  }

  lemma {:induction false} StepOnQueue(h: Hasher, s: State, a: Action, e: Event)
    requires Step(h, s, a).Some?
    ensures e in Step(h, s, a).value.queue <==> AddsEvent(s, a, e) || (e in s.queue && !(a.Get? && a.e == e))
  {
  }

  // ----- failures ---------------------------------------------------------

  lemma {:induction false} ClockCounts(h: Hasher, workers: nat, acts: seq<Action>)
    requires Run(h, Init(workers), acts).Some?
    ensures Run(h, Init(workers), acts).value.clock == |acts|
  {
    hide Effect, Enabled;
    if acts == [] {
    } else {
      ClockCounts(h, workers, acts[..|acts| - 1]);
    }
  }

  /** The history of starts is that of the Get actions. */
  lemma {:induction false} StartedByGet(h: Hasher, workers: nat, acts: seq<Action>, g: Hash)
    requires Run(h, Init(workers), acts).Some? && g in Run(h, Init(workers), acts).value.started
    ensures
      var i := Run(h, Init(workers), acts).value.started[g];
      i < |acts| && acts[i].Get? && Digest(h, acts[i].e) == g
  {
    if acts == [] {
    } else {
      var before, a := acts[..|acts| - 1], acts[|acts| - 1];
      ClockCounts(h, workers, before);
      if a.Get? && Digest(h, a.e) == g {
      } else {
        StartedByGet(h, workers, before, g);
      }
    }
  }

  /** The worker ends no processing between the two. */
  ghost predicate NoneFinished(acts: seq<Action>, w: nat, i: nat, j: nat)
    requires j <= |acts|
  {
    forall m :: i < m < j ==> !(acts[m].Finish? && acts[m].w == w)
  }

  /** What has become of the failure at index `i` of worker `w` by index `m`: the
  worker is on its way to `handleErr`, or has got there. */
  ghost predicate Carried(h: Hasher, s: State, acts: seq<Action>, i: nat, w: nat, e: Event, m: nat)
    requires i < m <= |acts| && At(h, s, acts, m).Some?
  {
    var t := At(h, s, acts, m).value;
    || (&& w < |t.workers| && (t.workers[w] == Deleted(e, i, true) || t.workers[w] == Checking(e, i))
        && NoneFinished(acts, w, i, m))
    || (exists j :: i < j < m && acts[j].Check? && acts[j].w == w && NoneFinished(acts, w, i, j)
                    && (acts[j].retry ==> Debt(Digest(h, e), i) in t.debts))
  }

  lemma {:induction false} StepCarries(h: Hasher, s: State, a: Action, i: nat, w: nat, e: Event)
    requires Step(h, s, a).Some? && w < |s.workers|
    ensures
      var t := Step(h, s, a).value;
      && s.debts <= t.debts && |t.workers| == |s.workers|
      && (!s.workers[w].Working? ==> !(a.Finish? && a.w == w))
      && (s.workers[w] == Deleted(e, i, true) ==> t.workers[w] == s.workers[w] || t.workers[w] == Checking(e, i))
      && (s.workers[w] == Checking(e, i) ==>
            || t.workers[w] == s.workers[w]
            || (a.Check? && a.w == w && (a.retry ==> Debt(Digest(h, e), i) in t.debts)))
  {
  }

  lemma {:induction false} WorkersStay(h: Hasher, s: State, acts: seq<Action>)
    requires Run(h, s, acts).Some?
    ensures |Run(h, s, acts).value.workers| == |s.workers|
  {
    hide Step;
    if acts == [] {
    } else {
      WorkersStay(h, s, acts[..|acts| - 1]);
      StepKeepsWorkers(h, Run(h, s, acts[..|acts| - 1]).value, acts[|acts| - 1]);
    }
  }

  lemma {:induction false} StepKeepsWorkers(h: Hasher, s: State, a: Action)
    requires Step(h, s, a).Some?
    ensures |Step(h, s, a).value.workers| == |s.workers|
  {
  }

  lemma {:induction false} FailureIsCarried(h: Hasher, workers: nat, acts: seq<Action>, i: nat, w: nat, e: Event, m: nat)
    requires Run(h, Init(workers), acts).Some? && i < m <= |acts| && acts[i] == Finish(w, true)
    requires At(h, Init(workers), acts, i).Some? && At(h, Init(workers), acts, m).Some?
    requires
      var s := At(h, Init(workers), acts, i).value;
      w < |s.workers| && s.workers[w].Working? && s.workers[w].e == e
    ensures Carried(h, Init(workers), acts, i, w, e, m)
  {
    hide Step, Run;
    var s0 := Init(workers);
    if m == i + 1 {
      RunPrefix(h, s0, acts, i);
      ClockCounts(h, workers, acts[..i]);
      FinishDeletes(h, At(h, s0, acts, i).value, w);
    } else {
      RunPrefix(h, s0, acts, m - 1);
      FailureIsCarried(h, workers, acts, i, w, e, m - 1);
      WorkersStay(h, s0, acts[..i]);
      WorkersStay(h, s0, acts[..m - 1]);
      StepCarries(h, At(h, s0, acts, m - 1).value, acts[m - 1], i, w, e);
    }
  }

  lemma {:induction false} FinishDeletes(h: Hasher, s: State, w: nat)
    requires Step(h, s, Finish(w, true)).Some? && w < |s.workers| && s.workers[w].Working?
    ensures
      var t := Step(h, s, Finish(w, true)).value;
      w < |t.workers| && t.workers[w] == Deleted(s.workers[w].e, s.clock, true)
  {
  }

  /** Every failure gets to `handleErr`, and every failure it retries is followed
  by another processing: in every run, free of trace-id failures, that comes to
  rest, each processing that ends in failure at index `i` is followed by the
  worker's check of the retry limit, and if that says to retry, by the taking of
  an event with the same digest at some index after `i`. */
  lemma {:induction false} EveryFailureIsHandled(h: Hasher, workers: nat, acts: seq<Action>, i: nat, w: nat) returns (j: nat, k: nat)
    requires Regular(acts) && Run(h, Init(workers), acts).Some? && Quiescent(Run(h, Init(workers), acts).value)
    requires i < |acts| && acts[i] == Finish(w, true)
    ensures At(h, Init(workers), acts, i).Some?
    ensures i < j < |acts| && acts[j].Check? && acts[j].w == w && NoneFinished(acts, w, i, j)
    ensures
      var s := At(h, Init(workers), acts, i).value;
      && w < |s.workers| && s.workers[w].Working?
      && (acts[j].retry ==>
            i < k < |acts| && acts[k].Get? && Digest(h, acts[k].e) == Digest(h, s.workers[w].e))
  {
    hide Step, Run;
    var s0, n := Init(workers), |acts|;
    assert acts[..n] == acts;
    RunPrefix(h, s0, acts, i);
    RunPrefix(h, s0, acts, i + 1);
    var s := At(h, s0, acts, i).value;
    FinishEnabled(h, s, w);
    var g := Digest(h, s.workers[w].e);
    FailureIsCarried(h, workers, acts, i, w, s.workers[w].e, n);
    WorkersStay(h, s0, acts[..i]);
    WorkersStay(h, s0, acts);
    j :| i < j < n && acts[j].Check? && acts[j].w == w && NoneFinished(acts, w, i, j)
         && (acts[j].retry ==> Debt(g, i) in Run(h, s0, acts).value.debts);
    k := 0;
    if acts[j].retry {
      NoFailureIsLost(h, workers, acts, Debt(g, i));
      StartedByGet(h, workers, acts, g);
      k := Run(h, s0, acts).value.started[g];
    }
  }

  lemma {:induction false} FinishEnabled(h: Hasher, s: State, w: nat)
    requires Step(h, s, Finish(w, true)).Some?
    ensures w < |s.workers| && s.workers[w].Working?
  {
  }

  // ----- only failures are retried ----------------------------------------

  /** The last of the worker's actions of these kinds: how its processing ended, and whether to retry. */
  function LastFinish(acts: seq<Action>, w: nat): Option<bool> {
    if acts == [] then None
    else if acts[|acts| - 1].Finish? && acts[|acts| - 1].w == w then Some(acts[|acts| - 1].failed)
    else LastFinish(acts[..|acts| - 1], w)
  }

  function LastCheck(acts: seq<Action>, w: nat): Option<bool> {
    if acts == [] then None
    else if acts[|acts| - 1].Check? && acts[|acts| - 1].w == w then Some(acts[|acts| - 1].retry)
    else LastCheck(acts[..|acts| - 1], w)
  }

  predicate Justified(pc: Pc, finish: Option<bool>, check: Option<bool>) {
    && (pc.Deleted? ==> finish == Some(pc.failed))
    && (pc.Checking? || pc.Loading? || pc.Storing? || pc.Adding? ==> finish == Some(true))
    && (pc.Loading? || pc.Storing? || pc.Adding? ==> check == Some(true))
  }

  lemma {:induction false} StepIsJustified(h: Hasher, s: State, a: Action, w: nat, finish: Option<bool>, check: Option<bool>)
    requires Step(h, s, a).Some? && w < |s.workers| && Justified(s.workers[w], finish, check)
    ensures
      var t := Step(h, s, a).value;
      && w < |t.workers|
      && Justified(t.workers[w], if a.Finish? && a.w == w then Some(a.failed) else finish,
                                 if a.Check? && a.w == w then Some(a.retry) else check)
  {
  }

  /** An event is added again only after the worker's last processing failed and
  its last check said to retry: no success and no dropped event is requeued. */
  lemma {:induction false} OnlyFailuresAreRetried(h: Hasher, workers: nat, acts: seq<Action>, w: nat)
    requires Run(h, Init(workers), acts).Some? && w < workers
    ensures
      var s := Run(h, Init(workers), acts).value;
      && w < |s.workers| && Justified(s.workers[w], LastFinish(acts, w), LastCheck(acts, w))
      && (Step(h, s, AddAgain(w)).Some? ==> LastFinish(acts, w) == Some(true) && LastCheck(acts, w) == Some(true))
  {
    hide Step, Justified;
    if acts == [] {
      IdleIsJustified();
    } else {
      OnlyFailuresAreRetried(h, workers, acts[..|acts| - 1], w);
      StepIsJustified(h, Run(h, Init(workers), acts[..|acts| - 1]).value, acts[|acts| - 1], w,
                      LastFinish(acts[..|acts| - 1], w), LastCheck(acts[..|acts| - 1], w));
    }
    AddAgainIsJustified(h, Run(h, Init(workers), acts).value, w, LastFinish(acts, w), LastCheck(acts, w));
  }

  lemma {:induction false} IdleIsJustified()
    ensures Justified(Idle, None, None)
  {
  }

  lemma {:induction false} AddAgainIsJustified(h: Hasher, s: State, w: nat, finish: Option<bool>, check: Option<bool>)
    requires w < |s.workers| && Justified(s.workers[w], finish, check)
    ensures Step(h, s, AddAgain(w)).Some? ==> finish == Some(true) && check == Some(true)
  {
  }
}
