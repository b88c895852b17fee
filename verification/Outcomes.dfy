/** What a reconcile achieves, and which event it takes to achieve it. */
module Outcomes {
  import opened Items
  import opened Events
  import opened Meta
  import opened Reconcile

  // ----- events drive reconciles ------------------------------------------

  /** The event of the reconcile begun last. */
  function Begun(acts: seq<Action>): Option<EventType> {
    if acts == [] then None
    else if acts[|acts| - 1].Begin? then Some(acts[|acts| - 1].evt)
    else Begun(acts[..|acts| - 1])
  }

  predicate InCreate(pc: Pc) {
    pc.CreateFetch? || Creating(pc) || pc.OutcomeFetch? || pc.OutcomeStamp? || pc.OutcomeWrite?
  }

  predicate InDelete(pc: Pc) {
    pc.DeleteFetch? || pc.DeleteCall? || pc.DeleteRefetch? || pc.DeleteStatus? || pc.DeleteFinal?
  }

  predicate BeforeDispatch(pc: Pc) {
    pc.Fetching? || pc.Dispatching? || OnFirstCopy(pc)
  }

  predicate Follows(pc: Pc, begun: Option<EventType>) {
    && (InCreate(pc) ==> begun == Some(Create))
    && (InDelete(pc) ==> begun == Some(Delete))
    && (BeforeDispatch(pc) ==> begun == Some(pc.evt))
  }

  lemma {:induction false} DecideFollows(s: World, begun: Option<EventType>)
    requires Follows(s.pc, begun) && DecideStep(s).Some?
    ensures Follows(DecideStep(s).value.pc, begun)
  {
    hide ShouldDelete, IsPaused, CreateIncomplete;
  }

  lemma {:induction false} OtherFollows(s: World, a: Action, begun: Option<EventType>)
    requires Follows(s.pc, begun) && Step(s, a).Some? && !a.Begin? && !a.Write? && !a.Fetch? && !a.Decide?
    ensures Follows(Step(s, a).value.pc, begun)
  {
    hide PendingDuring, WriteStep, FetchStep, DecideStep;
  }

  lemma {:induction false} WriteFollows(s: World, outcome: Outcome, begun: Option<EventType>)
    requires Follows(s.pc, begun) && WriteStep(s, outcome).Some?
    ensures Follows(WriteStep(s, outcome).value.pc, begun)
  {
    hide Without, WriteTime, Store;
  }

  lemma {:induction false} FetchFollows(s: World, ok: bool, begun: Option<EventType>)
    requires Follows(s.pc, begun) && FetchStep(s, ok).Some?
    ensures Follows(FetchStep(s, ok).value.pc, begun)
  {
  }

  /** In every run the external Create is called only in reconciles begun with a
  Create event, and the external Delete only in those begun with a Delete event. */
  lemma {:induction false} EventsDriveReconciles(clock: nat, acts: seq<Action>)
    requires Run(Start(clock), acts).Some?
    ensures
      var pc := Run(Start(clock), acts).value.pc;
      && Follows(pc, Begun(acts))
      && (pc.CreateCall? ==> Begun(acts) == Some(Create))
      && (pc.DeleteCall? ==> Begun(acts) == Some(Delete))
  {
    hide Step;
    if acts == [] {
    } else {
      var s, a := Run(Start(clock), acts[..|acts| - 1]).value, acts[|acts| - 1];
      EventsDriveReconciles(clock, acts[..|acts| - 1]);
      StepIs(s, a);
      if a.Begin? {
      } else if a.Write? {
        WriteFollows(s, a.outcome, Begun(acts[..|acts| - 1]));
      } else if a.Fetch? {
        FetchFollows(s, a.ok, Begun(acts[..|acts| - 1]));
      } else if a.Decide? {
        DecideFollows(s, Begun(acts[..|acts| - 1]));
      } else {
        OtherFollows(s, a, Begun(acts[..|acts| - 1]));
      }
    }
  }

  lemma {:induction false} StepIs(s: World, a: Action)
    requires Step(s, a).Some?
    ensures a.Begin? ==> Step(s, a).value.pc == Fetching(a.evt)
    ensures a.Write? ==> Step(s, a) == WriteStep(s, a.outcome)
    ensures a.Fetch? ==> Step(s, a) == FetchStep(s, a.ok)
    ensures a.Decide? ==> Step(s, a) == DecideStep(s)
  {
    hide WriteStep, FetchStep, DecideStep, JudgeStep, CreateStep, DeleteStep, StatusStep, Store;
  }

  // ----- undisturbed reconciles -------------------------------------------

  /** A reconcile in which every call succeeds and nobody else moves. */
  ghost predicate Undisturbed(acts: seq<Action>, evt: EventType) {
    && acts != [] && acts[0] == Begin(evt)
    && forall i :: 0 < i < |acts| ==> Succeeds(acts[i])
  }

  predicate Succeeds(a: Action) {
    match a
    case Fetch(ok) => ok
    case Decide => true
    case Probe(ok) => ok
    case Judge => true
    case Write(outcome) => outcome.Applied?
    case ReadClock => true
    case CallCreate(landed, _, ok) => landed && ok
    case CallDelete(gone, ok) => gone && ok
    case Status(outcome) => outcome.Applied?
    case _ => false
  }

  lemma {:induction false} FirstStep(s: World, evt: EventType) returns (acts: seq<Action>, t: World)
    requires s.pc.Idle?
    ensures Undisturbed(acts, evt) && Run(s, acts) == Some(t) && t == s.(pc := Fetching(evt))
  {
    RunNothing(s);
    acts, t := Extend(s, [], s, Begin(evt));
  }

  lemma {:induction false} Onward(s: World, evt: EventType, acts0: seq<Action>, s0: World, a: Action) returns (acts: seq<Action>, t: World)
    requires Undisturbed(acts0, evt) && Run(s, acts0) == Some(s0) && Succeeds(a) && Step(s0, a).Some?
    ensures Undisturbed(acts, evt) && Run(s, acts) == Some(t) && t == Step(s0, a).value
  {
    hide Step, Run, Succeeds;
    acts, t := Extend(s, acts0, s0, a);
  }

  /** The worker takes up an object that is neither paused nor to be orphaned nor to be recovered. */
  lemma {:induction false} TakenUp(s: World, evt: EventType) returns (acts: seq<Action>, t: World)
    requires s.pc.Idle? && s.server.Some?
    requires
      var o := s.server.value;
      && !IsPaused(o.annotations) && !CreateIncomplete(o.annotations)
      && (o.deleting ==> ShouldDelete(o.annotations))
    ensures Undisturbed(acts, evt) && Run(s, acts) == Some(t) && t == s.(pc := Securing(evt), el := s.server.value)
  {
    hide Undisturbed, IsPaused, CreateIncomplete, ShouldDelete, Run;
    acts, t := FirstStep(s, evt);
    acts, t := Onward(s, evt, acts, t, Fetch(true));
    acts, t := Onward(s, evt, acts, t, Decide);
    acts, t := Onward(s, evt, acts, t, Decide);
  }

  /** A Delete event deletes: from any idle state of a safe run, if the object is
  under deletion and its policies ask for it, an undisturbed reconcile leaves
  neither the external resource nor the object. */
  lemma {:induction false} DeleteEventDeletes(s: World) returns (acts: seq<Action>, t: World)
    requires Safe(s) && s.pc.Idle? && s.server.Some? && s.server.value.deleting
    requires
      var a := s.server.value.annotations;
      !IsPaused(a) && !CreateIncomplete(a) && ShouldDelete(a)
    ensures Undisturbed(acts, Delete) && Run(s, acts) == Some(t)
    ensures t.ext.None? && t.server.None? && !t.orphaned
  {
    hide Undisturbed, IsPaused, CreateIncomplete, ShouldDelete, Run, Safe;
    StoredFinalizers(s);
    acts, t := TakenUp(s, Delete);
    acts, t := Onward(s, Delete, acts, t, Decide);
    acts, t := Onward(s, Delete, acts, t, Decide);
    acts, t := Onward(s, Delete, acts, t, Fetch(true));
    acts, t := DeletedAndReleased(s, acts, t);
  }

  lemma {:induction false} DeletedAndReleased(s: World, acts0: seq<Action>, s0: World) returns (acts: seq<Action>, t: World)
    requires Undisturbed(acts0, Delete) && Run(s, acts0) == Some(s0) && s0.pc.DeleteCall?
    requires s0.server.Some? && s0.server.value.deleting && s0.server.value.finalizers != []
    ensures Undisturbed(acts, Delete) && Run(s, acts) == Some(t)
    ensures t.ext.None? && t.server.None? && !t.orphaned
  {
    hide Undisturbed, Run;
    acts, t := Onward(s, Delete, acts0, s0, CallDelete(true, true));
    acts, t := Onward(s, Delete, acts, t, Fetch(true));
    acts, t := Onward(s, Delete, acts, t, Status(Applied));
    acts, t := Onward(s, Delete, acts, t, Write(Applied));
  }

  lemma {:induction false} StoredFinalizers(s: World)
    requires Safe(s) && s.server.Some?
    ensures
      var o := s.server.value;
      && (o.finalizers == [] || o.finalizers == [FINALIZER])
      && (o.deleting ==> o.finalizers == [FINALIZER])
  {
  }

  /** A Create event creates: an undisturbed reconcile of a live object leaves
  the resource in existence, the object protected by the finalizer, and the
  announcement and its success recorded at the time of the reconcile. */
  lemma {:induction false} CreateEventCreates(s: World) returns (acts: seq<Action>, t: World)
    requires Safe(s) && s.pc.Idle? && s.server.Some? && !s.server.value.deleting
    requires !IsPaused(s.server.value.annotations) && !CreateIncomplete(s.server.value.annotations)
    ensures Undisturbed(acts, Create) && Run(s, acts) == Some(t) && t.clock == s.clock
    ensures t.ext.Some? && t.server.Some? && t.server.value.finalizers == [FINALIZER] && t.attempt.None?
    ensures
      var a := t.server.value.annotations;
      && ReadTime(a, PENDING) == Truncate(s.clock) && ReadTime(a, SUCCEEDED) == Truncate(s.clock)
      && ReadTime(a, FAILED) == ReadTime(s.server.value.annotations, FAILED)
  {
    hide Undisturbed, IsPaused, CreateIncomplete, ShouldDelete, Run, Safe, ReadTime, WriteTime, Truncate;
    StoredFinalizers(s);
    acts, t := TakenUp(s, Create);
    acts, t := Onward(s, Create, acts, t, Decide);
    if t.pc.Adding? {
      assert [] + [FINALIZER] == [FINALIZER];
      acts, t := Onward(s, Create, acts, t, Write(Applied));
    }
    acts, t := AnnouncedAndCalled(s, acts, t);
    acts, t := SuccessRecorded(s, acts, t);
    BothMarkers(s.server.value.annotations, s.clock);
  }

  lemma {:induction false} BothMarkers(a: Annotations, now: nat)
    ensures
      var b := WriteTime(WriteTime(a, PENDING, now), SUCCEEDED, now);
      && ReadTime(b, PENDING) == Truncate(now) && ReadTime(b, SUCCEEDED) == Truncate(now)
      && ReadTime(b, FAILED) == ReadTime(a, FAILED)
  {
    hide Truncate;
  }

  lemma {:induction false} AnnouncedAndCalled(s: World, acts0: seq<Action>, s0: World) returns (acts: seq<Action>, t: World)
    requires Undisturbed(acts0, Create) && Run(s, acts0) == Some(s0) && s0.pc == Dispatching(Create)
    requires s0.server == Some(s0.el) && !s0.el.deleting
    ensures Undisturbed(acts, Create) && Run(s, acts) == Some(t) && t.clock == s0.clock && t.pc == OutcomeFetch(true) && t.ext.Some?
    ensures
      && t.server.Some? && !t.server.value.deleting && t.server.value.finalizers == s0.el.finalizers
      && t.server.value.annotations == WriteTime(s0.el.annotations, PENDING, s0.clock)
  {
    hide Undisturbed, Run, WriteTime;
    acts, t := Onward(s, Create, acts0, s0, Decide);
    acts, t := Onward(s, Create, acts, t, Fetch(true));
    acts, t := Onward(s, Create, acts, t, ReadClock);
    acts, t := WrittenAndCalled(s, acts, t);
  }

  lemma {:induction false} WrittenAndCalled(s: World, acts0: seq<Action>, s0: World) returns (acts: seq<Action>, t: World)
    requires Undisturbed(acts0, Create) && Run(s, acts0) == Some(s0) && s0.pc.CreatePend?
    requires s0.server == Some(s0.el) && !s0.el.deleting
    ensures Undisturbed(acts, Create) && Run(s, acts) == Some(t) && t.clock == s0.clock && t.pc == OutcomeFetch(true) && t.ext.Some?
    ensures
      && t.server.Some? && !t.server.value.deleting && t.server.value.finalizers == s0.el.finalizers
      && t.server.value.annotations == WriteTime(s0.el.annotations, PENDING, s0.pendingAt)
  {
    hide Undisturbed, Run, WriteTime;
    acts, t := Onward(s, Create, acts0, s0, Write(Applied));
    acts, t := Onward(s, Create, acts, t, Fetch(true));
    acts, t := Onward(s, Create, acts, t, CallCreate(true, t.clock, true));
  }

  lemma {:induction false} SuccessRecorded(s: World, acts0: seq<Action>, s0: World) returns (acts: seq<Action>, t: World)
    requires Undisturbed(acts0, Create) && Run(s, acts0) == Some(s0) && s0.pc == OutcomeFetch(true)
    requires s0.server.Some? && !s0.server.value.deleting
    ensures Undisturbed(acts, Create) && Run(s, acts) == Some(t) && t.clock == s0.clock && t.ext == s0.ext && t.attempt.None?
    ensures
      && t.server.Some? && t.server.value.finalizers == s0.server.value.finalizers
      && t.server.value.annotations == WriteTime(s0.server.value.annotations, SUCCEEDED, s0.clock)
  {
    hide Undisturbed, Run, WriteTime;
    acts, t := Onward(s, Create, acts0, s0, Fetch(true));
    acts, t := Onward(s, Create, acts, t, ReadClock);
    acts, t := Onward(s, Create, acts, t, Write(Applied));
  }

  /** Any event orphans: if the policies keep the resource, an undisturbed
  reconcile of an object under deletion lets the object go and nothing else. */
  lemma {:induction false} DeletionOrphans(s: World, evt: EventType) returns (acts: seq<Action>, t: World)
    requires Safe(s) && s.pc.Idle? && s.server.Some? && s.server.value.deleting
    requires !IsPaused(s.server.value.annotations) && !ShouldDelete(s.server.value.annotations)
    ensures Undisturbed(acts, evt) && Run(s, acts) == Some(t)
    ensures t.server.None? && t.ext == s.ext && (t.orphaned <==> s.ext.Some?)
  {
    hide Undisturbed, IsPaused, CreateIncomplete, ShouldDelete, Run, Safe, Without;
    StoredFinalizers(s);
    WithoutOwn([FINALIZER]);
    acts, t := FirstStep(s, evt);
    acts, t := Onward(s, evt, acts, t, Fetch(true));
    acts, t := Onward(s, evt, acts, t, Decide);
    acts, t := Onward(s, evt, acts, t, Write(Applied));
  }

  // ----- paused objects ---------------------------------------------------

  /** A reconcile that finds the object paused does nothing to the external
  resource and comes to an end, whatever happens around it. */
  lemma {:induction false} PausedIsLeftAlone(s: World, acts: seq<Action>)
    requires s.pc.Deciding? && IsPaused(s.el.annotations) && Run(s, acts).Some?
    requires forall i :: 0 <= i < |acts| ==> !acts[i].Begin?
    ensures
      var t := Run(s, acts).value;
      t.ext == s.ext && ((t.pc == s.pc && t.el == s.el) || t.pc.Tail? || t.pc.Idle?)
  {
    hide Step, IsPaused;
    if acts == [] {
    } else {
      PausedIsLeftAlone(s, acts[..|acts| - 1]);
      PausedStep(Run(s, acts[..|acts| - 1]).value, acts[|acts| - 1]);
    }
  }

  lemma {:induction false} PausedStep(s: World, a: Action)
    requires Step(s, a).Some? && !a.Begin?
    requires s.pc.Tail? || s.pc.Idle? || (s.pc.Deciding? && IsPaused(s.el.annotations))
    ensures
      var t := Step(s, a).value;
      t.ext == s.ext && (t.pc.Tail? || t.pc.Idle? || (t.pc == s.pc && t.el == s.el))
  {
    hide IsPaused, ShouldDelete, CreateIncomplete;
  }
}
