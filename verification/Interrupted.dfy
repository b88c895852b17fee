/** Interrupted creates: when the worker dies, or a write fails, between the
external Create and the recording of its outcome, the protocol does not create
again on top of what it created. */
module Interrupted {
  import opened Items
  import opened Meta
  import opened Events
  import opened Reconcile

  /** `lag`: a landed create is visible within this time of its announcement.
  `span`: how long an Observe and the decision on its answer may take. */
  datatype Timing = Timing(lag: nat, span: nat)

  /** The grace period, less the second the marker format may lose, covers both. */
  predicate Suitable(t: Timing) {
    t.lag == 0 || t.lag + t.span <= GRACE - SECOND + 1
  }

  predicate SameMarkers(a: Annotations, b: Annotations) {
    && ReadTime(a, PENDING) == ReadTime(b, PENDING)
    && ReadTime(a, SUCCEEDED) == ReadTime(b, SUCCEEDED)
    && ReadTime(a, FAILED) == ReadTime(b, FAILED)
  }

  /** The conditions under which recovery is promised to be safe: users leave
  the markers alone, an announcement never falls in the second of an earlier
  outcome, and the external system keeps to the timing. */
  predicate Disciplined(t: Timing, s: World, a: Action) {
    && Orderly(s, a)
    && (a.Edit? && s.server.Some? ==> SameMarkers(a.annotations, s.server.value.annotations))
    && (a.ReadClock? && s.pc.CreateStamp? ==>
          && Truncate(s.clock) > ReadTime(s.el.annotations, SUCCEEDED)
          && Truncate(s.clock) > ReadTime(s.el.annotations, FAILED))
    && (a.CallCreate? && a.landed ==> a.visibleAt <= s.pendingAt + t.lag)
    && (a.Judge? && s.pc.Judging? ==> s.clock - s.pc.seenAt <= t.span)
  }

  ghost predicate DisciplinedRun(t: Timing, s: World, acts: seq<Action>) {
    forall i :: 0 <= i < |acts| ==>
      Run(s, acts[..i]).Some? && Disciplined(t, Run(s, acts[..i]).value, acts[i])
  }

  /** A create landed and no outcome has been recorded for it. */
  predicate Unrecorded(s: World) {
    s.attempt.Some? && s.attempt.value.landed
  }

  /** An unrecorded create shows on the object: it is protected, marked
  incomplete, and its announcement bounds when it becomes visible. */
  predicate Marked(t: Timing, s: World) {
    Unrecorded(s) ==>
      && Guarded(s) && !s.orphanRun
      && CreateIncomplete(s.server.value.annotations)
      && s.attempt.value.visibleAt < ReadTime(s.server.value.annotations, PENDING) + SECOND + t.lag
      && s.ext.Some? && s.ext.value <= s.attempt.value.visibleAt
      && (t.lag == 0 ==> s.attempt.value.visibleAt <= s.clock && !(s.pc.Judging? && !s.pc.seen))
  }

  /** The points from which the worker goes on to Create without looking again. */
  predicate Committed(pc: Pc) {
    || (pc.Recording? && !pc.seen) || pc.Securing? || pc.Adding? || pc.Dispatching?
    || pc.CreateFetch? || Creating(pc)
  }

  /** What each program point knows about unrecorded creates. */
  predicate Tracking(s: World) {
    && (OnFirstCopy(s.pc) && Unrecorded(s) && s.server.Some? ==> SameMarkers(s.el.annotations, s.server.value.annotations))
    && (Committed(s.pc) ==> !Unrecorded(s))
    && (s.pc.Judging? ==> s.pc.seenAt <= s.clock)
    && (s.pc.Judging? && !s.pc.seen && Unrecorded(s) ==> s.pc.seenAt < s.attempt.value.visibleAt)
    && (s.pc.CreatePend? ==>
          && Truncate(s.pendingAt) > ReadTime(s.el.annotations, SUCCEEDED)
          && Truncate(s.pendingAt) > ReadTime(s.el.annotations, FAILED))
    && (s.pc.CreateRefetch? || s.pc.CreateCall? ==>
          && s.server.Some?
          && CreateIncomplete(s.server.value.annotations)
          && ReadTime(s.server.value.annotations, PENDING) == Truncate(s.pendingAt))
    && s.clock >= SECOND && s.pendingAt <= s.clock
    && (s.pc.CreatePend? ==> s.pendingAt >= SECOND)
  }

  predicate Covered(t: Timing, s: World) {
    Safe(s) && Marked(t, s) && Tracking(s)
  }

  lemma {:induction false} SameMarkersSameState(a: Annotations, b: Annotations)
    requires SameMarkers(a, b)
    ensures CreateIncomplete(a) == CreateIncomplete(b)
  {
  }

  lemma {:induction false} UserKeepsCovered(t: Timing, s: World, a: Action)
    requires Covered(t, s) && Disciplined(t, s, a) && Step(s, a).Some? && (a.Edit? || a.RequestDelete? || a.Recreate?)
    ensures Marked(t, Step(s, a).value) && Tracking(Step(s, a).value)
  {
    hide ShouldDelete, ReadTime, Truncate, CreateIncomplete;
    if a.Edit? {
      SameMarkersSameState(a.annotations, s.server.value.annotations);
    }
  }

  /** Writing the announcement marks the object incomplete. */
  lemma {:induction false} PendingMarks(a: Annotations, at: nat)
    requires at >= SECOND && Truncate(at) > ReadTime(a, SUCCEEDED) && Truncate(at) > ReadTime(a, FAILED)
    ensures CreateIncomplete(WriteTime(a, PENDING, at))
    ensures ReadTime(WriteTime(a, PENDING, at), PENDING) == Truncate(at)
  {
    AnnouncedCreateIsNoticed(a, at);
  }

  lemma {:induction false} AppliedWriteKeepsCovered(t: Timing, s: World)
    requires Covered(t, s) && WriteStep(s, Applied).Some?
    ensures Marked(t, WriteStep(s, Applied).value) && Tracking(WriteStep(s, Applied).value)
  {
    hide ShouldDelete, ReadTime, Truncate, CreateIncomplete, WriteTime, Without;
    WithoutOwn(s.el.finalizers);
    if s.pc.CreatePend? {
      PendingMarks(s.el.annotations, s.pendingAt);
    }
  }

  lemma {:induction false} LostWriteKeepsCovered(t: Timing, s: World)
    requires Covered(t, s) && WriteStep(s, Lost).Some?
    ensures Marked(t, WriteStep(s, Lost).value) && Tracking(WriteStep(s, Lost).value)
  {
    hide ShouldDelete, ReadTime, Truncate, CreateIncomplete, WriteTime, Without;
    WithoutOwn(s.el.finalizers);
    if s.pc.CreatePend? {
      PendingMarks(s.el.annotations, s.pendingAt);
    }
  }

  lemma {:induction false} WriteKeepsCovered(t: Timing, s: World, outcome: Outcome)
    requires Covered(t, s) && WriteStep(s, outcome).Some?
    ensures Marked(t, WriteStep(s, outcome).value) && Tracking(WriteStep(s, outcome).value)
  {
    hide Safe, ReadTime, Truncate, CreateIncomplete, Accepted, Sent;
    match outcome
    case Applied => AppliedWriteKeepsCovered(t, s);
    case Lost => LostWriteKeepsCovered(t, s);
    case Refused =>
  }

  /** The grace period covers the lag: a create that was not seen although its time was up never landed. */
  lemma {:induction false} JudgeKeepsCovered(t: Timing, s: World)
    requires Suitable(t) && Covered(t, s) && Disciplined(t, s, Judge) && JudgeStep(s).Some?
    ensures Marked(t, JudgeStep(s).value) && Tracking(JudgeStep(s).value)
  {
    hide ShouldDelete, ReadTime, Truncate;
  }

  lemma {:induction false} DecideKeepsCovered(t: Timing, s: World)
    requires Covered(t, s) && DecideStep(s).Some?
    ensures Marked(t, DecideStep(s).value) && Tracking(DecideStep(s).value)
  {
    hide ShouldDelete, IsPaused, ReadTime, Truncate, CreateIncomplete;
    if s.pc.Checking? && Unrecorded(s) {
      SameMarkersSameState(s.el.annotations, s.server.value.annotations);
    }
  }

  lemma {:induction false} FetchKeepsCovered(t: Timing, s: World, ok: bool)
    requires Covered(t, s) && FetchStep(s, ok).Some?
    ensures Marked(t, FetchStep(s, ok).value) && Tracking(FetchStep(s, ok).value)
  {
    hide ShouldDelete, ReadTime, Truncate, CreateIncomplete;
  }

  lemma {:induction false} CreateKeepsCovered(t: Timing, s: World, landed: bool, visibleAt: nat, ok: bool)
    requires Covered(t, s) && CreateStep(s, landed, visibleAt, ok).Some? && (landed ==> visibleAt <= s.pendingAt + t.lag)
    ensures
      var r := CreateStep(s, landed, visibleAt, ok).value;
      Marked(t, r) && Tracking(r)
  {
    hide ShouldDelete, CreateIncomplete, ReadTime;
    assert s.pendingAt < Truncate(s.pendingAt) + SECOND by {
      assert s.pendingAt == s.pendingAt / SECOND * SECOND + s.pendingAt % SECOND;
    }
  }

  lemma {:induction false} ProbeKeepsCovered(t: Timing, s: World, ok: bool)
    requires Covered(t, s) && Step(s, Probe(ok)).Some?
    ensures Marked(t, Step(s, Probe(ok)).value) && Tracking(Step(s, Probe(ok)).value)
  {
    hide Safe, CreateIncomplete, ReadTime, Truncate;
  }

  lemma {:induction false} DeleteKeepsCovered(t: Timing, s: World, gone: bool, ok: bool)
    requires Covered(t, s) && DeleteStep(s, gone, ok).Some?
    ensures
      var r := DeleteStep(s, gone, ok).value;
      Marked(t, r) && Tracking(r)
  {
    hide Safe, CreateIncomplete, ReadTime, Truncate;
  }

  lemma {:induction false} StatusKeepsCovered(t: Timing, s: World, outcome: Outcome)
    requires Covered(t, s) && StatusStep(s, outcome).Some?
    ensures Marked(t, StatusStep(s, outcome).value) && Tracking(StatusStep(s, outcome).value)
  {
    hide ShouldDelete, CreateIncomplete, ReadTime, Truncate, NoLeak, OwnFinalizer, WillCreate;
  }

  lemma {:induction false} OtherKeepsCovered(t: Timing, s: World, a: Action)
    requires Covered(t, s) && Disciplined(t, s, a) && Step(s, a).Some?
    requires a.Tick? || a.Crash? || a.Begin? || a.ReadClock? || a.Finish?
    ensures Marked(t, Step(s, a).value) && Tracking(Step(s, a).value)
  {
    hide ShouldDelete, CreateIncomplete, ReadTime, Truncate, WriteStep, FetchStep, DecideStep, JudgeStep, CreateStep;
  }

  lemma {:induction false} StepKeepsCovered(t: Timing, s: World, a: Action)
    requires Suitable(t) && Covered(t, s) && Disciplined(t, s, a) && Step(s, a).Some?
    ensures Covered(t, Step(s, a).value)
  {
    hide Marked, Tracking, Safe, WriteStep, FetchStep, DecideStep, JudgeStep, CreateStep, DeleteStep, StatusStep, Store, SameMarkers;
    StepKeepsSafe(s, a);
    match a
    case Edit(_, _) => UserKeepsCovered(t, s, a);
    case RequestDelete => UserKeepsCovered(t, s, a);
    case Recreate(_, _) => UserKeepsCovered(t, s, a);
    case Write(outcome) => WriteKeepsCovered(t, s, outcome);
    case Judge => JudgeKeepsCovered(t, s);
    case Decide => DecideKeepsCovered(t, s);
    case Fetch(ok) => FetchKeepsCovered(t, s, ok);
    case CallCreate(landed, visibleAt, ok) => CreateKeepsCovered(t, s, landed, visibleAt, ok);
    case Probe(ok) => ProbeKeepsCovered(t, s, ok);
    case CallDelete(gone, ok) => DeleteKeepsCovered(t, s, gone, ok);
    case Status(outcome) => StatusKeepsCovered(t, s, outcome);
    case _ => OtherKeepsCovered(t, s, a);
  }

  lemma {:induction false} CoveredInAnyRun(t: Timing, clock: nat, acts: seq<Action>)
    requires Suitable(t) && clock >= SECOND
    requires Run(Start(clock), acts).Some? && DisciplinedRun(t, Start(clock), acts)
    ensures Covered(t, Run(Start(clock), acts).value)
  {
    hide Step, Covered, Disciplined;
    if acts == [] {
      StartIsCovered(t, clock);
    } else {
      var before := acts[..|acts| - 1];
      assert forall i :: 0 <= i < |before| ==> acts[..i] == before[..i];
      CoveredInAnyRun(t, clock, before);
      StepKeepsCovered(t, Run(Start(clock), before).value, acts[|acts| - 1]);
    }
  }

  lemma {:induction false} StartIsCovered(t: Timing, clock: nat)
    requires clock >= SECOND
    ensures Covered(t, Start(clock))
  {
  }

  /** Interrupted-create safety: under the stated discipline no run, whatever
  crashes and failed or lost writes it contains, reaches an external Create
  while an earlier landed create has no recorded outcome, let alone while that
  one is still invisible. */
  lemma {:induction false} NeverCreatesOverAnUnrecordedCreate(t: Timing, clock: nat, acts: seq<Action>)
    requires Suitable(t) && clock >= SECOND
    requires Run(Start(clock), acts).Some? && DisciplinedRun(t, Start(clock), acts)
    requires Run(Start(clock), acts).value.pc.CreateCall?
    ensures !Unrecorded(Run(Start(clock), acts).value)
  {
    hide Run, Start, Safe, Marked;
    CoveredInAnyRun(t, clock, acts);
  }

  // ----- the timing condition is exact ------------------------------------

  /** A disciplined run from an object just created, and where it leads. */
  ghost predicate Trail(t: Timing, clock: nat, acts: seq<Action>, s: World) {
    Run(Start(clock), acts) == Some(s) && DisciplinedRun(t, Start(clock), acts)
  }

  lemma {:induction false} Go(t: Timing, clock: nat, acts: seq<Action>, s: World, a: Action) returns (more: seq<Action>, u: World)
    requires Trail(t, clock, acts, s) && Step(s, a).Some? && Disciplined(t, s, a)
    ensures Trail(t, clock, more, u) && u == Step(s, a).value
  {
    hide Step, Start, Disciplined;
    more, u := Extend(Start(clock), acts, s, a);
    assert forall i :: 0 <= i < |acts| ==> more[..i] == acts[..i] && more[i] == acts[i];
    assert more[..|acts|] == acts;
  }

  lemma {:induction false} TrailStart(t: Timing, clock: nat)
    ensures Trail(t, clock, [], Start(clock))
  {
  }

  lemma {:induction false} SecuredTrail(t: Timing, clock: nat) returns (acts: seq<Action>, s: World)
    ensures Trail(t, clock, acts, s)
    ensures
      var o := Obj(2, [FINALIZER], false, map[], 0);
      s == World(Some(o), 3, None, clock, Dispatching(Create), o, 0, None, false, false)
  {
    hide Trail, IsPaused, CreateIncomplete, Truncate, ReadTime;
    PlainObject();
    TrailStart(t, clock);
    acts, s := Go(t, clock, [], Start(clock), Recreate(map[], 0));
    acts, s := Go(t, clock, acts, s, Begin(Create));
    acts, s := Go(t, clock, acts, s, Fetch(true));
    acts, s := Go(t, clock, acts, s, Decide);
    acts, s := Go(t, clock, acts, s, Decide);
    assert s.pc == Securing(Create) && s.el == Obj(1, [], false, map[], 0) && s.server == Some(s.el);
    acts, s := Go(t, clock, acts, s, Decide);
    assert [] + [FINALIZER] == [FINALIZER];
    acts, s := Go(t, clock, acts, s, Write(Applied));
  }

  /** From dispatch to the call. */
  lemma {:induction false} AnnounceTrail(t: Timing, clock: nat, acts0: seq<Action>, s0: World) returns (acts: seq<Action>, s: World)
    requires Trail(t, clock, acts0, s0) && s0.pc == Dispatching(Create) && s0.server == Some(s0.el) && !s0.el.deleting
    requires Truncate(s0.clock) > ReadTime(s0.el.annotations, SUCCEEDED) && Truncate(s0.clock) > ReadTime(s0.el.annotations, FAILED)
    ensures Trail(t, clock, acts, s)
    ensures
      var o := s0.el.(annotations := WriteTime(s0.el.annotations, PENDING, s0.clock), rv := s0.nextRv);
      s == s0.(pc := CreateCall, server := Some(o), el := o, nextRv := s0.nextRv + 1, pendingAt := s0.clock)
  {
    hide Trail, WriteTime, Truncate, ReadTime;
    acts, s := Go(t, clock, acts0, s0, Decide);
    acts, s := Go(t, clock, acts, s, Fetch(true));
    acts, s := Go(t, clock, acts, s, ReadClock);
    acts, s := AnnounceWriteTrail(t, clock, acts, s);
  }

  lemma {:induction false} AnnounceWriteTrail(t: Timing, clock: nat, acts0: seq<Action>, s0: World) returns (acts: seq<Action>, s: World)
    requires Trail(t, clock, acts0, s0) && s0.pc == CreatePend && s0.server == Some(s0.el) && !s0.el.deleting
    ensures Trail(t, clock, acts, s)
    ensures
      var o := s0.el.(annotations := WriteTime(s0.el.annotations, PENDING, s0.pendingAt), rv := s0.nextRv);
      s == s0.(pc := CreateCall, server := Some(o), el := o, nextRv := s0.nextRv + 1)
  {
    hide Trail, WriteTime, Truncate, ReadTime;
    acts, s := Go(t, clock, acts0, s0, Write(Applied));
    acts, s := Go(t, clock, acts, s, Fetch(true));
  }

  /** A landed create is forgotten in a crash, and recovery looks just before it shows. */
  lemma {:induction false} MissTrail(t: Timing, clock: nat, acts0: seq<Action>, s0: World) returns (acts: seq<Action>, s: World)
    requires t.lag > 0 && Trail(t, clock, acts0, s0) && s0.pc == CreateCall && s0.server == Some(s0.el) && s0.ext == None
    requires s0.pendingAt == s0.clock && !IsPaused(s0.el.annotations) && CreateIncomplete(s0.el.annotations) && !s0.el.deleting
    ensures Trail(t, clock, acts, s)
    ensures
      var shows := s0.clock + t.lag;
      s == s0.(pc := Judging(Create, false, shows - 1), clock := shows - 1, ext := Some(shows), orphanRun := false,
               attempt := Some(Attempt(true, shows)), orphaned := false)
  {
    hide Trail, IsPaused, CreateIncomplete, Truncate, ReadTime;
    acts, s := Go(t, clock, acts0, s0, CallCreate(true, s0.clock + t.lag, true));
    acts, s := Go(t, clock, acts, s, Crash);
    acts, s := Go(t, clock, acts, s, Tick(s0.clock + t.lag - 1));
    acts, s := ProbeTrail(t, clock, acts, s);
  }

  lemma {:induction false} ProbeTrail(t: Timing, clock: nat, acts0: seq<Action>, s0: World) returns (acts: seq<Action>, s: World)
    requires Trail(t, clock, acts0, s0) && s0.pc == Idle && s0.server.Some? && !s0.server.value.deleting
    requires !IsPaused(s0.server.value.annotations) && CreateIncomplete(s0.server.value.annotations)
    requires s0.ext.Some? && s0.ext.value > s0.clock
    ensures Trail(t, clock, acts, s)
    ensures s == s0.(pc := Judging(Create, false, s0.clock), el := s0.server.value)
  {
    hide Trail, IsPaused, CreateIncomplete, Truncate, ReadTime;
    acts, s := Go(t, clock, acts0, s0, Begin(Create));
    acts, s := Go(t, clock, acts, s, Fetch(true));
    acts, s := Go(t, clock, acts, s, Decide);
    acts, s := Go(t, clock, acts, s, Decide);
    acts, s := Go(t, clock, acts, s, Probe(true));
  }

  /** It judges so late that the announcement is past its grace period, and rolls it back. */
  lemma {:induction false} RollBackTrail(t: Timing, clock: nat, acts0: seq<Action>, s0: World) returns (acts: seq<Action>, s: World)
    requires Trail(t, clock, acts0, s0) && s0.pc == Judging(Create, false, s0.clock) && s0.server == Some(s0.el) && !s0.el.deleting
    requires s0.el.finalizers == [FINALIZER] && !PendingDuring(s0.el.annotations, GRACE, s0.clock + t.span)
    ensures Trail(t, clock, acts, s)
    ensures
      var o := s0.el.(annotations := s0.el.annotations - {PENDING}, rv := s0.nextRv);
      s == s0.(pc := Dispatching(Create), clock := s0.clock + t.span, server := Some(o), el := o, nextRv := s0.nextRv + 1)
  {
    hide Trail, PendingDuring, Truncate, ReadTime;
    acts, s := Go(t, clock, acts0, s0, Tick(s0.clock + t.span));
    acts, s := Go(t, clock, acts, s, Judge);
    acts, s := RollBackWriteTrail(t, clock, acts, s);
  }

  lemma {:induction false} RollBackWriteTrail(t: Timing, clock: nat, acts0: seq<Action>, s0: World) returns (acts: seq<Action>, s: World)
    requires Trail(t, clock, acts0, s0) && s0.pc == Recording(Create, false, s0.clock) && s0.server == Some(s0.el) && !s0.el.deleting
    requires s0.el.finalizers == [FINALIZER]
    ensures Trail(t, clock, acts, s)
    ensures
      var o := s0.el.(annotations := s0.el.annotations - {PENDING}, rv := s0.nextRv);
      s == s0.(pc := Dispatching(Create), server := Some(o), el := o, nextRv := s0.nextRv + 1)
  {
    hide Trail, Truncate, ReadTime;
    acts, s := Go(t, clock, acts0, s0, Write(Applied));
    acts, s := Go(t, clock, acts, s, Decide);
  }

  /** What the markers say along the way, for an announcement in the last nanosecond of a second. */
  lemma {:induction false} LateInTheSecond(t: Timing)
    requires !Suitable(t)
    ensures
      var clock := 2 * SECOND - 1;
      var a := WriteTime(map[], PENDING, clock);
      && Truncate(clock) == SECOND
      && !IsPaused(a) && CreateIncomplete(a) && !PendingDuring(a, GRACE, clock + t.lag - 1 + t.span)
      && ReadTime(a - {PENDING}, SUCCEEDED) == 0 && ReadTime(a - {PENDING}, FAILED) == 0
      && Truncate(clock + t.lag - 1 + t.span) > 0
      && ReadTime(map[], SUCCEEDED) == 0 && ReadTime(map[], FAILED) == 0
  {
    TruncateIsMonotone(2 * SECOND - 1, 2 * SECOND - 1 + t.lag - 1 + t.span);
  }

  lemma {:induction false} UnsuitableTimingCreatesAgain(t: Timing) returns (acts: seq<Action>, s: World)
    requires !Suitable(t)
    ensures Trail(t, 2 * SECOND - 1, acts, s) && s.pc.CreateCall? && Unrecorded(s)
  {
    hide Trail, IsPaused, CreateIncomplete, Truncate, ReadTime, WriteTime, PendingDuring;
    LateInTheSecond(t);
    var clock := 2 * SECOND - 1;
    acts, s := SecuredTrail(t, clock);
    acts, s := AnnounceTrail(t, clock, acts, s);
    acts, s := MissTrail(t, clock, acts, s);
    acts, s := RollBackTrail(t, clock, acts, s);
    acts, s := AnnounceTrail(t, clock, acts, s);
  }

  /** No disciplined run comes to an external Create while a landed create is unrecorded. */
  ghost predicate TimingIsSafe(t: Timing) {
    forall clock: nat, acts: seq<Action> |
      && clock >= SECOND && Run(Start(clock), acts).Some? && DisciplinedRun(t, Start(clock), acts)
      && Run(Start(clock), acts).value.pc.CreateCall? ::
      !Unrecorded(Run(Start(clock), acts).value)
  }

  /** The timing condition is exact, to the nanosecond. */
  lemma {:induction false} SuitableTimingIsExact(t: Timing)
    ensures TimingIsSafe(t) <==> Suitable(t)
  {
    hide Run, DisciplinedRun, Unrecorded, Start;
    if Suitable(t) {
      forall clock: nat, acts: seq<Action> |
        && clock >= SECOND && Run(Start(clock), acts).Some? && DisciplinedRun(t, Start(clock), acts)
        && Run(Start(clock), acts).value.pc.CreateCall?
        ensures !Unrecorded(Run(Start(clock), acts).value)
      {
        NeverCreatesOverAnUnrecordedCreate(t, clock, acts);
      }
    } else {
      var acts, s := UnsuitableTimingCreatesAgain(t);
    }
  }

  // ----- why the announcement must fall in a later second -----------------

  /** The handshake up to the call, from an object in reconcile. */
  lemma {:induction false} Announce(clock: nat, acts0: seq<Action>, s0: World) returns (acts: seq<Action>, s: World)
    requires Run(Start(clock), acts0) == Some(s0) && s0.pc == Dispatching(Create) && s0.server == Some(s0.el) && !s0.el.deleting
    ensures Run(Start(clock), acts) == Some(s)
    ensures
      var o := s0.el.(annotations := WriteTime(s0.el.annotations, PENDING, s0.clock), rv := s0.nextRv);
      s == s0.(pc := CreateCall, server := Some(o), el := o, nextRv := s0.nextRv + 1, pendingAt := s0.clock)
  {
    hide WriteTime, Run;
    acts, s := Extend(Start(clock), acts0, s0, Decide);
    acts, s := Extend(Start(clock), acts, s, Fetch(true));
    acts, s := Extend(Start(clock), acts, s, ReadClock);
    acts, s := AnnounceWrite(clock, acts, s);
  }

  lemma {:induction false} AnnounceWrite(clock: nat, acts0: seq<Action>, s0: World) returns (acts: seq<Action>, s: World)
    requires Run(Start(clock), acts0) == Some(s0) && s0.pc == CreatePend && s0.server == Some(s0.el) && !s0.el.deleting
    ensures Run(Start(clock), acts) == Some(s)
    ensures
      var o := s0.el.(annotations := WriteTime(s0.el.annotations, PENDING, s0.pendingAt), rv := s0.nextRv);
      s == s0.(pc := CreateCall, server := Some(o), el := o, nextRv := s0.nextRv + 1)
  {
    hide WriteTime, Run;
    acts, s := Extend(Start(clock), acts0, s0, Write(Applied));
    acts, s := Extend(Start(clock), acts, s, Fetch(true));
  }

  /** A new Create event for an object that looks complete. */
  lemma {:induction false} TakeUp(clock: nat, acts0: seq<Action>, s0: World) returns (acts: seq<Action>, s: World)
    requires Run(Start(clock), acts0) == Some(s0) && Guarded(s0) && !s0.server.value.deleting
    requires !IsPaused(s0.server.value.annotations) && !CreateIncomplete(s0.server.value.annotations)
    ensures Run(Start(clock), acts) == Some(s)
    ensures s == s0.(pc := Dispatching(Create), el := s0.server.value, orphanRun := false)
  {
    hide IsPaused, CreateIncomplete, Run;
    acts, s := Extend(Start(clock), acts0, s0, Crash);
    acts, s := Extend(Start(clock), acts, s, Begin(Create));
    acts, s := Extend(Start(clock), acts, s, Fetch(true));
    acts, s := Extend(Start(clock), acts, s, Decide);
    acts, s := Extend(Start(clock), acts, s, Decide);
    acts, s := Extend(Start(clock), acts, s, Decide);
  }

  /** A first create that fails and whose failure is recorded at once. */
  lemma {:induction false} FailAndRecord(clock: nat, acts0: seq<Action>, s0: World) returns (acts: seq<Action>, s: World)
    requires Run(Start(clock), acts0) == Some(s0) && s0.pc == CreateCall && s0.server == Some(s0.el) && !s0.el.deleting
    ensures Run(Start(clock), acts) == Some(s)
    ensures
      var o := s0.el.(annotations := WriteTime(s0.el.annotations, FAILED, s0.clock), rv := s0.nextRv);
      s == s0.(pc := Tail, server := Some(o), el := o, nextRv := s0.nextRv + 1, attempt := None)
  {
    hide WriteTime, Run;
    acts, s := Extend(Start(clock), acts0, s0, CallCreate(false, s0.clock, false));
    acts, s := RecordFailure(clock, acts, s);
  }

  lemma {:induction false} RecordFailure(clock: nat, acts0: seq<Action>, s0: World) returns (acts: seq<Action>, s: World)
    requires Run(Start(clock), acts0) == Some(s0) && s0.pc == OutcomeFetch(false) && s0.server == Some(s0.el) && !s0.el.deleting
    ensures Run(Start(clock), acts) == Some(s)
    ensures
      var o := s0.el.(annotations := WriteTime(s0.el.annotations, FAILED, s0.clock), rv := s0.nextRv);
      s == s0.(pc := Tail, server := Some(o), el := o, nextRv := s0.nextRv + 1, attempt := None)
  {
    hide WriteTime, Run;
    acts, s := Extend(Start(clock), acts0, s0, Fetch(true));
    acts, s := Extend(Start(clock), acts, s, ReadClock);
    acts, s := Extend(Start(clock), acts, s, Write(Applied));
  }

  lemma {:induction false} SameSecondLooksComplete(a: Annotations, at: nat)
    requires !IsPaused(a)
    ensures
      var b := WriteTime(WriteTime(a, PENDING, at), FAILED, at);
      && !CreateIncomplete(b) && !IsPaused(b)
      && !CreateIncomplete(WriteTime(b, PENDING, at)) && !IsPaused(WriteTime(b, PENDING, at))
  {
  }

  /** If one second sees a failed create recorded, a second create announced
  and a crash, recovery takes the object for complete and creates again on top
  of a landed create that is still invisible. */
  lemma {:induction false} SameSecondCreatesAgain(clock: nat, lag: nat) returns (acts: seq<Action>, s: World)
    requires lag > 0
    ensures Run(Start(clock), acts) == Some(s)
    ensures s.pc.CreateCall? && Unrecorded(s) && s.clock < s.attempt.value.visibleAt <= clock + lag
  {
    hide Run, WriteTime, IsPaused, CreateIncomplete;
    PlainObject();
    SameSecondLooksComplete(map[], clock);
    acts, s := NewObjectSecured(clock, map[]);
    acts, s := Announce(clock, acts, s);
    acts, s := FailAndRecord(clock, acts, s);
    acts, s := TakeUp(clock, acts, s);
    acts, s := Announce(clock, acts, s);
    acts, s := Extend(Start(clock), acts, s, CallCreate(true, clock + lag, true));
    acts, s := TakeUp(clock, acts, s);
    acts, s := Announce(clock, acts, s);
  }

  lemma {:induction false} PlainObject()
    ensures !IsPaused(map[]) && !CreateIncomplete(map[])
  {
  }
}
