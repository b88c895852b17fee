/** `Run` of the controller: starting the workers and, once the caller's
context is cancelled, the bounded drain. */
module Drain {
  import opened Items

  /** A worker goroutine: `wait.Until` around `runWorker`. */
  datatype Worker =
    | Outside       // in wait.Until, between launches
    | Entering      // about to call GetWithPriority
    | Parked        // saw the queue open, waits for an item
    | Received      // has an item, has yet to load the shutdown flag
    | Committed     // the flag was not set: about to reconcile
    | Reconciling
    | Exited

  datatype Reason = NotSynced | Abrupt | Drained | Expired

  datatype Main =
    | Syncing
    | Serving
    | Stopping(timeout: Time)               // about to close stopWorkers
    | Flagging(timeout: Time)               // about to set the queue's shutdown flag
    | Waking(timeout: Time)                 // about to close the queue's done channel
    | Deciding(timeout: Time)
    | Awaiting(timeout: Time, from: Time)   // the goroutine that awaits the workers is started
    | Leaving(reason: Reason)               // the deferred calls are left
    | Returned(reason: Reason)

  /** `asked` is the timeout that was read, `since` when the wait began, `late`
  counts the reconciles each worker began after the shutdown flag was set. */
  datatype State = State(main: Main, workers: seq<Worker>, timeout: Time, ctxDone: bool, stop: bool, shutdown: bool,
                         done: bool, drained: bool, cancelled: bool, clock: Time,
                         asked: Time, since: Time, late: seq<nat>)

  datatype Action =
    | Tick(now: Time)
    | Cancel                      // the caller cancels
    | SetTimeout(timeout: Time)
    | Proceed                     // main's next step where there is no choice
    | SyncFails
    | SeeDrained
    | SeeExpired
    | CloseDrained
    | Launch(w: nat)
    | Leave(w: nat)               // wait.Until sees stopWorkers closed
    | Enter(w: nat)               // GetWithPriority looks at the shutdown flag
    | Receive(w: nat)
    | Wake(w: nat)                // the done channel is closed
    | LoadFlag(w: nat)
    | Begin(w: nat)
    | End(w: nat)
    | Panic(w: nat)

  function Init(numWorkers: nat, timeout: Time, clock: Time): State {
    State(Syncing, seq(numWorkers, i => Exited), timeout, false, false, false, false, false, false, clock,
          0, 0, seq(numWorkers, i => 0))
  }

  predicate AllExited(s: State) {
    forall w :: 0 <= w < |s.workers| ==> s.workers[w].Exited?
  }

  predicate OfWorker(a: Action) {
    a.Launch? || a.Leave? || a.Enter? || a.Receive? || a.Wake? || a.LoadFlag? || a.Begin? || a.End? || a.Panic?
  }

  predicate MainEnabled(s: State, a: Action) {
    match a
    case Tick(now) => now >= s.clock
    case Proceed =>
      match s.main {
        case Serving => s.ctxDone
        case Awaiting(_, _) => false
        case Returned(_) => false
        case _ => true
      }
    case SyncFails => s.main.Syncing? && s.ctxDone
    case SeeDrained => s.main.Awaiting? && s.drained
    case SeeExpired => s.main.Awaiting? && s.main.timeout > 0 && s.clock - s.main.from >= s.main.timeout
    case CloseDrained => (s.main.Awaiting? || s.main.Leaving? || s.main.Returned?) && AllExited(s)
    case _ => !OfWorker(a)
  }

  /** Main's next step. The deferred calls cancel the reconcile context and shut the queue down. */
  function Next(s: State): (t: State)
    requires MainEnabled(s, Proceed)
    ensures |t.workers| == |s.workers|
    ensures !s.main.Syncing? ==> t.workers == s.workers && !t.main.Syncing?
    ensures s.done ==> t.done
  {
    match s.main
    case Syncing => s.(main := Serving, workers := seq(|s.workers|, i => Outside))
    case Serving => s.(main := Stopping(s.timeout), asked := s.timeout)
    case Stopping(d) => s.(main := Flagging(d), stop := true)
    case Flagging(d) => s.(main := Waking(d), shutdown := true)
    case Waking(d) => s.(main := Deciding(d), done := true)
    case Deciding(d) =>
      if d == 0 then s.(main := Leaving(Abrupt), cancelled := true)
      else s.(main := Awaiting(d, s.clock), since := s.clock)
    case Leaving(r) => s.(main := Returned(r), cancelled := s.cancelled || r != NotSynced, shutdown := true, done := true)
  }

  function MainStep(s: State, a: Action): (t: State)
    requires MainEnabled(s, a)
    ensures |t.workers| == |s.workers|
    ensures !s.main.Syncing? ==> t.workers == s.workers && !t.main.Syncing?
    ensures s.done ==> t.done
  {
    match a
    case Tick(now) => s.(clock := now)
    case Cancel => s.(ctxDone := true)
    case SetTimeout(d) => s.(timeout := d)
    case Proceed => Next(s)
    case SyncFails => s.(main := Leaving(NotSynced))
    case SeeDrained => s.(main := Leaving(Drained))
    case SeeExpired => s.(main := Leaving(Expired), cancelled := true)
    case CloseDrained => s.(drained := true)
  }

  /** Where a worker's step takes it; None if it cannot take that step. */
  function Moved(s: State, p: Worker, a: Action): Option<Worker>
    requires OfWorker(a)
  {
    match a
    case Launch(_) => if p.Outside? && !s.stop then Some(Entering) else None
    case Leave(_) => if p.Outside? && s.stop then Some(Exited) else None
    case Enter(_) => if p.Entering? then Some(if s.shutdown then Outside else Parked) else None
    case Receive(_) => if p.Parked? then Some(Received) else None
    case Wake(_) => if p.Parked? && s.done then Some(Outside) else None
    case LoadFlag(_) => if p.Received? then Some(if s.shutdown then Outside else Committed) else None
    case Begin(_) => if p.Committed? then Some(Reconciling) else None
    case End(_) => if p.Reconciling? then Some(Entering) else None
    case Panic(_) => if p.Reconciling? then Some(Outside) else None
  }

  function Step(s: State, a: Action): Option<State>
  {
    if OfWorker(a) then
      if a.w >= |s.workers| || a.w >= |s.late| then None
      else
        var p := Moved(s, s.workers[a.w], a);
        if p.None? then None
        else
          var late := if a.Begin? && s.shutdown then s.late[a.w := s.late[a.w] + 1] else s.late;
          Some(s.(workers := s.workers[a.w := p.value], late := late))
    else if MainEnabled(s, a) then Some(MainStep(s, a))
    else None
  }

  function Run(s: State, acts: seq<Action>): Option<State> {
    if acts == [] then Some(s)
    else
      var t := Run(s, acts[..|acts| - 1]);
      if t.None? then None else Step(t.value, acts[|acts| - 1])
  }

  // ----- what every run keeps ---------------------------------------------

  /** Why `Run` may leave. */
  predicate Justified(s: State, r: Reason) {
    match r
    case NotSynced => AllExited(s) && !s.stop
    case Abrupt => s.asked == 0 && s.cancelled
    case Drained => s.asked != 0 && AllExited(s)
    case Expired => s.asked > 0 && s.cancelled && s.clock - s.since >= s.asked
  }

  predicate MainInv(s: State) {
    match s.main
    case Syncing => AllExited(s) && !s.stop && !s.shutdown && !s.done && !s.cancelled && !s.drained
    case Serving => !s.stop && !s.shutdown && !s.done && !s.cancelled && !s.drained
    case Stopping(d) => d == s.asked && !s.stop && !s.shutdown && !s.done && !s.cancelled && !s.drained
    case Flagging(d) => d == s.asked && s.stop && !s.shutdown && !s.done && !s.cancelled && !s.drained
    case Waking(d) => d == s.asked && s.stop && s.shutdown && !s.done && !s.cancelled && !s.drained
    case Deciding(d) => d == s.asked && s.stop && s.shutdown && s.done && !s.cancelled && !s.drained
    case Awaiting(d, f) => d == s.asked && d != 0 && f == s.since && s.stop && s.shutdown && s.done && !s.cancelled
    case Leaving(r) => Justified(s, r) && (r != NotSynced ==> s.stop && s.shutdown && s.done) && (r == Drained ==> !s.cancelled)
    case Returned(r) => Justified(s, r) && s.shutdown && s.done && (r != NotSynced ==> s.stop && s.cancelled)
  }

  /** A worker that began a reconcile late finds the queue shut down when it comes back. */
  predicate LateInv(p: Worker, late: nat) {
    late == 0 || (late == 1 && (p.Reconciling? || p.Entering? || p.Outside? || p.Exited?))
  }

  /** Before the drain: it takes a cancelled context to begin one, and until then no worker exits. */
  predicate BeforeDrain(s: State) {
    && (!s.main.Syncing? && !s.main.Serving? ==> s.ctxDone)
    && (s.main.Serving? || s.main.Stopping? ==> forall w :: 0 <= w < |s.workers| ==> !s.workers[w].Exited?)
  }

  ghost predicate Inv(s: State) {
    && MainInv(s) && BeforeDrain(s) && |s.late| == |s.workers|
    && (s.drained ==> AllExited(s))
    && (forall w :: 0 <= w < |s.workers| ==> LateInv(s.workers[w], s.late[w]))
    && (!s.shutdown ==> forall w :: 0 <= w < |s.late| ==> s.late[w] == 0)
  }

  lemma {:induction false} WorkerStepKeepsInv(s: State, a: Action)
    requires Inv(s) && OfWorker(a) && Step(s, a).Some?
    ensures Inv(Step(s, a).value)
  {
    assert !AllExited(s);
  }

  lemma {:induction false} NextKeepsInv(s: State)
    requires Inv(s) && MainEnabled(s, Proceed)
    ensures Inv(Next(s))
  {
    hide LateInv;
    NoneLate(s);
  }

  lemma {:induction false} NoneLate(s: State)
    ensures forall p: Worker :: LateInv(p, 0)
  {
  }

  lemma {:induction false} LeaveKeepsInv(s: State, a: Action)
    requires Inv(s) && MainEnabled(s, a) && (a.SyncFails? || a.SeeDrained? || a.SeeExpired? || a.CloseDrained?)
    ensures Inv(MainStep(s, a))
  {
    hide LateInv, Next;
  }

  lemma {:induction false} MainStepKeepsInv(s: State, a: Action)
    requires Inv(s) && MainEnabled(s, a)
    ensures Inv(MainStep(s, a))
  {
    hide LateInv, Next;
    if a.Proceed? {
      NextKeepsInv(s);
    } else if a.SyncFails? || a.SeeDrained? || a.SeeExpired? || a.CloseDrained? {
      LeaveKeepsInv(s, a);
    }
  }

  lemma {:induction false} RunKeepsInv(numWorkers: nat, timeout: Time, clock: Time, acts: seq<Action>)
    requires Run(Init(numWorkers, timeout, clock), acts).Some?
    ensures
      var s := Run(Init(numWorkers, timeout, clock), acts).value;
      Inv(s) && |s.workers| == numWorkers
  {
    hide Inv, Init, Step, MainStep;
    if acts == [] {
      InitHasInv(numWorkers, timeout, clock);
    } else {
      var a := acts[|acts| - 1];
      RunKeepsInv(numWorkers, timeout, clock, acts[..|acts| - 1]);
      var s := Run(Init(numWorkers, timeout, clock), acts[..|acts| - 1]).value;
      StepKeepsWorkers(s, a);
      if OfWorker(a) {
        WorkerStepKeepsInv(s, a);
      } else {
        MainStepKeepsInv(s, a);
      }
    }
  }

  lemma {:induction false} InitHasInv(numWorkers: nat, timeout: Time, clock: Time)
    ensures Inv(Init(numWorkers, timeout, clock)) && |Init(numWorkers, timeout, clock).workers| == numWorkers
  {
  }

  lemma {:induction false} StepKeepsWorkers(s: State, a: Action)
    requires Step(s, a).Some?
    ensures |Step(s, a).value.workers| == |s.workers|
    ensures !OfWorker(a) ==> MainEnabled(s, a) && Step(s, a).value == MainStep(s, a)
  {
    hide Moved, MainStep, MainEnabled;
  }

  /** `Run` returns only when every worker has exited, or the grace period has
  expired and the reconcile context is cancelled, or the timeout was zero; or
  when the caches never synced and no worker was started. */
  lemma {:induction false} ReturnsOnlyWhenDrained(numWorkers: nat, timeout: Time, clock: Time, acts: seq<Action>)
    requires Run(Init(numWorkers, timeout, clock), acts).Some?
    requires Run(Init(numWorkers, timeout, clock), acts).value.main.Returned?
    ensures
      var s := Run(Init(numWorkers, timeout, clock), acts).value;
      && s.shutdown && s.ctxDone
      && (|| AllExited(s)
          || (s.cancelled && s.asked > 0 && s.clock - s.since >= s.asked)
          || (s.cancelled && s.asked == 0))
      && (s.asked < 0 ==> AllExited(s))
  {
    RunKeepsInv(numWorkers, timeout, clock, acts);
  }

  /** While a reconcile is under way its context is live, unless the grace
  period has expired or there was none. */
  lemma {:induction false} ContextIsLiveDuringGrace(numWorkers: nat, timeout: Time, clock: Time, acts: seq<Action>, w: nat)
    requires w < numWorkers && Run(Init(numWorkers, timeout, clock), acts).Some?
    requires
      var s := Run(Init(numWorkers, timeout, clock), acts).value;
      w < |s.workers| && s.workers[w].Reconciling? && s.cancelled
    ensures
      var s := Run(Init(numWorkers, timeout, clock), acts).value;
      s.asked == 0 || (s.asked > 0 && s.clock - s.since >= s.asked)
  {
    RunKeepsInv(numWorkers, timeout, clock, acts);
  }

  /** How far `Run` is from returning. */
  function Distance(m: Main): nat {
    match m
    case Syncing => 9
    case Serving => 8
    case Stopping(_) => 7
    case Flagging(_) => 6
    case Waking(_) => 5
    case Deciding(_) => 4
    case Awaiting(_, _) => 3
    case Leaving(_) => 1
    case Returned(_) => 0
  }

  /** Once the caller has cancelled, `Run` can always come closer to returning,
  unless it awaits workers that have not exited and no grace period has expired;
  with a timeout of zero it never waits. */
  lemma {:induction false} RunComesToReturn(s: State) returns (a: Action)
    requires Inv(s) && s.ctxDone && !s.main.Returned?
    requires s.main.Awaiting? ==> s.drained || (s.asked > 0 && s.clock - s.since >= s.asked)
    ensures !OfWorker(a) && Step(s, a).Some? && Distance(Step(s, a).value.main) < Distance(s.main)
    ensures s.main.Deciding? && s.asked == 0 ==> Step(s, a).value.main == Leaving(Abrupt)
  {
    a := if s.main.Awaiting? then (if s.drained then SeeDrained else SeeExpired) else Proceed;
  }

  /** And when the workers have exited, that is noticed. */
  lemma {:induction false} ExitIsNoticed(s: State)
    requires Inv(s) && s.main.Awaiting? && AllExited(s)
    ensures Step(s, CloseDrained).Some? && Step(s, CloseDrained).value.drained
  {
  }

  // ----- serving ----------------------------------------------------------

  /** Until the caller cancels, no worker exits, none is told to stop, and no context is cancelled. */
  lemma {:induction false} ServesUntilCancelled(numWorkers: nat, timeout: Time, clock: Time, acts: seq<Action>)
    requires Run(Init(numWorkers, timeout, clock), acts).Some?
    requires !Run(Init(numWorkers, timeout, clock), acts).value.ctxDone
    ensures
      var s := Run(Init(numWorkers, timeout, clock), acts).value;
      && (s.main.Syncing? || s.main.Serving?) && !s.stop && !s.shutdown && !s.cancelled
      && (s.main.Serving? ==> forall w :: 0 <= w < |s.workers| ==> !s.workers[w].Exited?)
  {
    RunKeepsInv(numWorkers, timeout, clock, acts);
  }

  /** While the queue is open a parked worker that receives an item reconciles it
  and comes back for the next, leaving everything as it was. */
  lemma {:induction false} WorkersServe(s: State, w: nat)
    requires !s.shutdown && w < |s.workers| == |s.late| && s.workers[w].Parked?
    ensures
      var t := Run(s, [Receive(w), LoadFlag(w), Begin(w)]);
      && t.Some? && t.value == s.(workers := s.workers[w := Reconciling])
      && Run(t.value, [End(w), Enter(w)]) == Some(s)
  {
    hide Run;
    RunThree(s, Receive(w), LoadFlag(w), Begin(w));
    var t := s.(workers := s.workers[w := Reconciling]);
    RunTwo(t, End(w), Enter(w));
    assert t.workers[w := Entering][w := Parked] == s.workers;
    assert s.workers[w := Received][w := Committed][w := Reconciling] == s.workers[w := Reconciling];
  }

  /** A parked worker waits until it receives an item or the queue is shut down. */
  lemma {:induction false} ParkedWorkersWait(s: State, acts: seq<Action>, w: nat)
    requires w < |s.workers| && s.workers[w].Parked? && !s.main.Syncing?
    requires Run(s, acts).Some? && !Run(s, acts).value.done && Receive(w) !in acts
    ensures
      var t := Run(s, acts).value;
      w < |t.workers| && t.workers[w].Parked? && !t.main.Syncing?
  {
    hide Step;
    if acts == [] {
    } else {
      var before, a := acts[..|acts| - 1], acts[|acts| - 1];
      ParkedStep(Run(s, before).value, a, w);
      ParkedWorkersWait(s, before, w);
    }
  }

  lemma {:induction false} ParkedStep(s: State, a: Action, w: nat)
    requires Step(s, a).Some?
    ensures s.done ==> Step(s, a).value.done
    ensures !s.main.Syncing? ==> !Step(s, a).value.main.Syncing?
    ensures !s.main.Syncing? && !s.done && a != Receive(w) && w < |s.workers| && s.workers[w].Parked? ==>
      w < |Step(s, a).value.workers| && Step(s, a).value.workers[w].Parked?
  {
    hide Moved, MainStep, MainEnabled;
    if OfWorker(a) && a.w == w && !a.Receive? && w < |s.workers| && s.workers[w].Parked? && !s.done {
      ParkedMoves(s, a);
    }
  }

  lemma {:induction false} ParkedMoves(s: State, a: Action)
    requires OfWorker(a) && !s.done && !a.Receive?
    ensures Moved(s, Parked, a).None?
  {
  }

  /** A worker that is launched gets to the queue. */
  lemma {:induction false} WorkersStart(s: State, w: nat)
    requires !s.shutdown && !s.stop && w < |s.workers| == |s.late| && s.workers[w].Outside?
    ensures Run(s, [Launch(w), Enter(w)]) == Some(s.(workers := s.workers[w := Parked]))
  {
    hide Run;
    RunTwo(s, Launch(w), Enter(w));
    assert s.workers[w := Entering][w := Parked] == s.workers[w := Parked];
  }

  lemma {:induction false} RunTwo(s: State, a: Action, b: Action)
    ensures Run(s, [a, b]) == if Step(s, a).None? then None else Step(Step(s, a).value, b)
  {
    hide Step;
    assert [a, b][..1] == [a] && [a][..0] == [];
    assert Run(s, [a]) == Step(s, a);
  }

  lemma {:induction false} RunThree(s: State, a: Action, b: Action, c: Action)
    ensures Run(s, [a, b, c]) ==
      if Step(s, a).None? || Step(Step(s, a).value, b).None? then None
      else Step(Step(Step(s, a).value, b).value, c)
  {
    hide Step;
    RunTwo(s, a, b);
    assert [a, b, c][..2] == [a, b];
  }

  /** How many of the worker's own actions are of a kind. */
  function Count(acts: seq<Action>, w: nat, which: Action -> bool): nat {
    if acts == [] then 0
    else Count(acts[..|acts| - 1], w, which) +
         if OfWorker(acts[|acts| - 1]) && acts[|acts| - 1].w == w && which(acts[|acts| - 1]) then 1 else 0
  }

  /** In every run, until shutdown, a worker reconciles every item it receives:
  it has begun as many reconciles as it received items, less the one it is about to begin. */
  lemma {:induction false} NoItemIsSkipped(numWorkers: nat, timeout: Time, clock: Time, acts: seq<Action>, w: nat)
    requires w < numWorkers && Run(Init(numWorkers, timeout, clock), acts).Some?
    requires !Run(Init(numWorkers, timeout, clock), acts).value.shutdown
    ensures
      var s := Run(Init(numWorkers, timeout, clock), acts).value;
      && w < |s.workers|
      && Count(acts, w, (a: Action) => a.Receive?) ==
           Count(acts, w, (a: Action) => a.Begin?) + if s.workers[w].Received? || s.workers[w].Committed? then 1 else 0
  {
    hide Step, Init, MainInv, LateInv;
    if acts == [] {
      InitIsOutside(numWorkers, timeout, clock, w);
    } else {
      var before, a := acts[..|acts| - 1], acts[|acts| - 1];
      var s := Run(Init(numWorkers, timeout, clock), before).value;
      RunKeepsInv(numWorkers, timeout, clock, before);
      StepMovesOne(s, a, w);
      NoItemIsSkipped(numWorkers, timeout, clock, before, w);
    }
  }

  lemma {:induction false} InitIsOutside(numWorkers: nat, timeout: Time, clock: Time, w: nat)
    requires w < numWorkers
    ensures
      var s := Init(numWorkers, timeout, clock);
      w < |s.workers| && s.workers[w].Exited?
  {
  }

  predicate HasItem(p: Worker) {
    p.Received? || p.Committed?
  }

  lemma {:induction false} StepMovesOne(s: State, a: Action, w: nat)
    requires Inv(s) && Step(s, a).Some? && w < |s.workers|
    ensures
      var t := Step(s, a).value;
      && (s.shutdown ==> t.shutdown) && w < |t.workers|
      && (!t.shutdown && OfWorker(a) && a.w == w ==>
            && (a.Receive? ==> !HasItem(s.workers[w]) && HasItem(t.workers[w]))
            && (a.Begin? ==> HasItem(s.workers[w]) && !HasItem(t.workers[w]))
            && (!a.Receive? && !a.Begin? ==> HasItem(s.workers[w]) == HasItem(t.workers[w])))
      && (!(OfWorker(a) && a.w == w) ==> HasItem(s.workers[w]) == HasItem(t.workers[w]))
  {
    hide Moved, MainStep, MainEnabled;
    if OfWorker(a) {
      MoveMovesItem(s, s.workers[a.w], a);
    } else {
      MainLeavesItems(s, a, w);
    }
  }

  lemma {:induction false} MoveMovesItem(s: State, p: Worker, a: Action)
    requires OfWorker(a) && Moved(s, p, a).Some?
    ensures
      var q := Moved(s, p, a).value;
      !s.shutdown ==>
        && (a.Receive? ==> !HasItem(p) && HasItem(q))
        && (a.Begin? ==> HasItem(p) && !HasItem(q))
        && (!a.Receive? && !a.Begin? ==> HasItem(p) == HasItem(q))
  {
  }

  lemma {:induction false} MainLeavesItems(s: State, a: Action, w: nat)
    requires Inv(s) && MainEnabled(s, a) && w < |s.workers|
    ensures (s.shutdown ==> MainStep(s, a).shutdown) && HasItem(MainStep(s, a).workers[w]) == HasItem(s.workers[w])
  {
    hide LateInv;
  }

  // ----- how much is left after shutdown ----------------------------------

  function Sum(s: seq<nat>): nat {
    if s == [] then 0 else Sum(s[..|s| - 1]) + s[|s| - 1]
  }

  lemma {:induction false} SumBound(s: seq<nat>, most: nat)
    requires forall i :: 0 <= i < |s| ==> s[i] <= most
    ensures Sum(s) <= most * |s|
  {
    if s == [] {
    } else {
      SumBound(s[..|s| - 1], most);
      assert most * |s| == most * (|s| - 1) + most;
    }
  }

  lemma {:induction false} SumUpdate(s: seq<nat>, i: nat, v: nat)
    requires i < |s|
    ensures Sum(s[i := v]) == Sum(s) - s[i] + v
  {
    var n := |s| - 1;
    if i < n {
      assert s[i := v][..n] == s[..n][i := v];
      SumUpdate(s[..n], i, v);
    } else {
      assert s[i := v][..n] == s[..n];
    }
  }

  /** After the shutdown flag is set no worker begins a second reconcile, so
  all together begin at most as many as there are workers. */
  lemma {:induction false} FewLateReconciles(numWorkers: nat, timeout: Time, clock: Time, acts: seq<Action>)
    requires Run(Init(numWorkers, timeout, clock), acts).Some?
    ensures
      var s := Run(Init(numWorkers, timeout, clock), acts).value;
      && (forall w :: 0 <= w < |s.late| ==> s.late[w] <= 1)
      && Sum(s.late) <= numWorkers
  {
    RunKeepsInv(numWorkers, timeout, clock, acts);
    SumBound(Run(Init(numWorkers, timeout, clock), acts).value.late, 1);
  }

  /** How many steps a worker has left once the queue is shut down. */
  function Rank(p: Worker): (r: nat)
    ensures r <= 4
  {
    match p
    case Committed => 4
    case Reconciling => 3
    case Parked => 3
    case Received => 2
    case Entering => 2
    case Outside => 1
    case Exited => 0
  }

  function Ranks(ws: seq<Worker>): (r: seq<nat>)
    ensures |r| == |ws|
  {
    seq(|ws|, i requires 0 <= i < |ws| => Rank(ws[i]))
  }

  predicate ShutDown(s: State) {
    s.stop && s.shutdown && s.done && !s.main.Syncing? && |s.late| == |s.workers|
  }

  function CountWorkerSteps(acts: seq<Action>): nat {
    if acts == [] then 0
    else CountWorkerSteps(acts[..|acts| - 1]) + if OfWorker(acts[|acts| - 1]) then 1 else 0
  }

  lemma {:induction false} StepLowersRank(s: State, a: Action)
    requires ShutDown(s) && Step(s, a).Some?
    ensures
      var t := Step(s, a).value;
      && ShutDown(t) && |t.workers| == |s.workers|
      && Sum(Ranks(t.workers)) + (if OfWorker(a) then 1 else 0) <= Sum(Ranks(s.workers))
  {
    hide Rank, Moved, MainStep;
    StepStaysShutDown(s, a);
    if OfWorker(a) {
      var t := Step(s, a).value;
      var was, now := Ranks(s.workers), Ranks(t.workers);
      assert now == was[a.w := Rank(t.workers[a.w])];
      SumUpdate(was, a.w, Rank(t.workers[a.w]));
      MoveLowersRank(s, s.workers[a.w], a);
    }
  }

  lemma {:induction false} StepStaysShutDown(s: State, a: Action)
    requires ShutDown(s) && Step(s, a).Some?
    ensures ShutDown(Step(s, a).value) && (!OfWorker(a) ==> Step(s, a).value.workers == s.workers)
  {
  }

  lemma {:induction false} MoveLowersRank(s: State, p: Worker, a: Action)
    requires ShutDown(s) && OfWorker(a) && Moved(s, p, a).Some?
    ensures Rank(Moved(s, p, a).value) < Rank(p)
  {
  }

  /** The drain is bounded: once the queue is shut down the workers take at
  most four steps each, in every run ... */
  lemma {:induction false} DrainIsBounded(s: State, acts: seq<Action>)
    requires ShutDown(s) && Run(s, acts).Some?
    ensures
      var t := Run(s, acts).value;
      && ShutDown(t) && |t.workers| == |s.workers|
      && CountWorkerSteps(acts) + Sum(Ranks(t.workers)) <= Sum(Ranks(s.workers)) <= 4 * |s.workers|
  {
    SumBound(Ranks(s.workers), 4);
    if acts == [] {
    } else {
      DrainIsBounded(s, acts[..|acts| - 1]);
      StepLowersRank(Run(s, acts[..|acts| - 1]).value, acts[|acts| - 1]);
    }
  }

  /** ... and none is stuck before it has exited: a worker can always move, and
  the only step that waits for something outside is the end of a reconcile. */
  lemma {:induction false} NoWorkerIsStuck(s: State, w: nat) returns (a: Action)
    requires ShutDown(s) && w < |s.workers| && !s.workers[w].Exited?
    ensures OfWorker(a) && a.w == w && Step(s, a).Some? && (a.End? <==> s.workers[w].Reconciling?)
  {
    a := match s.workers[w]
      case Outside => Leave(w)
      case Entering => Enter(w)
      case Parked => Wake(w)
      case Received => LoadFlag(w)
      case Committed => Begin(w)
      case _ => End(w);
  }
}
