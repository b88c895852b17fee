/** The managed-resource protocol of one worker against an API server with
optimistic concurrency, an external system whose resources become visible late,
a user who edits, deletes and recreates the object, and crashes anywhere.

Every API call, external call and reading of the clock is one action; the code
between two of them is folded into the action before it. Events are not
queued here: the worker may be given any event at any time. */
module Reconcile {
  import opened Items
  import opened Meta
  import opened Events

  const FINALIZER := "composition.krateo.io/finalizer"

  /** How long after a create attempt recovery keeps waiting for the resource to show. */
  const GRACE: Time := 120 * SECOND

  datatype Obj = Obj(rv: nat, finalizers: seq<string>, deleting: bool, annotations: Annotations, spec: int)

  /** An Update either succeeds, or is refused, or takes effect although the caller sees an error. */
  datatype Outcome = Applied | Lost | Refused

  datatype Pc =
    | Idle
    | Fetching(evt: EventType)
    | Deciding(evt: EventType)
    | Orphaning(evt: EventType)
    | Checking(evt: EventType)
    | Probing(evt: EventType)
    | Judging(evt: EventType, seen: bool, seenAt: nat)
    | Recording(evt: EventType, seen: bool, at: nat)
    | Securing(evt: EventType)
    | Adding(evt: EventType)
    | Dispatching(evt: EventType)
    | CreateFetch
    | CreateStamp
    | CreatePend
    | CreateRefetch
    | CreateCall
    | OutcomeFetch(ok: bool)
    | OutcomeStamp(ok: bool)
    | OutcomeWrite(ok: bool, at: nat)
    | DeleteFetch
    | DeleteCall
    | DeleteRefetch
    | DeleteStatus
    | DeleteFinal
    | Tail                          // nothing but reads, status writes and external reads or updates remain

  /** A Create call whose outcome is not yet recorded on the object. */
  datatype Attempt = Attempt(landed: bool, visibleAt: nat)

  datatype World = World(
    server: Option<Obj>,
    nextRv: nat,
    ext: Option<nat>,               // the external resource, and from when Observe reports it
    clock: nat,
    pc: Pc,
    el: Obj,                        // the worker's copy
    pendingAt: nat,                 // when the worker last announced a create
    attempt: Option<Attempt>,
    orphaned: bool,                 // the resource was left behind on purpose
    orphanRun: bool)                // the worker has orphaned in this very reconcile

  datatype Action =
    | Tick(now: nat)
    | Edit(annotations: Annotations, spec: int)
    | RequestDelete
    | Recreate(annotations: Annotations, spec: int)
    | Crash
    | Begin(evt: EventType)
    | Fetch(ok: bool)
    | Decide
    | Probe(ok: bool)
    | Judge
    | Write(outcome: Outcome)
    | ReadClock
    | CallCreate(landed: bool, visibleAt: nat, ok: bool)
    | CallDelete(gone: bool, ok: bool)
    | Status(outcome: Outcome)
    | Finish

  function Start(clock: nat): World {
    var none := Obj(0, [], false, map[], 0);
    World(None, 1, None, clock, Idle, none, 0, None, false, false)
  }

  /** Storing a version; an object under deletion without finalizers disappears. */
  function Store(s: World, o: Obj): World {
    s.(server := if o.deleting && o.finalizers == [] then None else Some(o.(rv := s.nextRv)), nextRv := s.nextRv + 1)
  }

  function Rest(s: World): World {
    s.(pc := Idle, orphanRun := false)
  }

  /** The object a pending Update sends. */
  function Sent(s: World): Obj {
    match s.pc
    case Orphaning(_) => s.el.(finalizers := Without(s.el.finalizers, FINALIZER))
    case Recording(_, seen, at) =>
      s.el.(annotations := if seen then WriteTime(s.el.annotations, SUCCEEDED, at) else s.el.annotations - {PENDING})
    case Adding(_) => s.el.(finalizers := s.el.finalizers + [FINALIZER])
    case CreatePend => s.el.(annotations := WriteTime(s.el.annotations, PENDING, s.pendingAt))
    case OutcomeWrite(ok, at) => s.el.(annotations := WriteTime(s.el.annotations, if ok then SUCCEEDED else FAILED, at))
    case DeleteFinal => s.el.(finalizers := [])
    case _ => s.el
  }

  predicate Writing(pc: Pc) {
    pc.Orphaning? || pc.Recording? || pc.Adding? || pc.CreatePend? || pc.OutcomeWrite? || pc.DeleteFinal?
  }

  /** Where a successful Update leads. */
  function AfterWrite(pc: Pc): Pc
    requires Writing(pc)
  {
    match pc
    case Orphaning(evt) => Checking(evt)
    case Recording(evt, _, _) => Securing(evt)
    case Adding(evt) => Dispatching(evt)
    case CreatePend => CreateRefetch
    case OutcomeWrite(_, _) => Tail
    case DeleteFinal => Tail
  }

  /** An Update takes effect: the API server accepts it only if the copy is the latest version. */
  function Accepted(s: World): World
    requires Writing(s.pc)
  {
    var t := Store(s, Sent(s));
    match s.pc
    case Orphaning(_) => t.(orphaned := s.ext.Some?, attempt := None)
    case Recording(_, seen, _) => if seen then t.(attempt := None) else t
    case Adding(_) => t.(orphaned := false)
    case OutcomeWrite(_, _) => t.(attempt := None)
    case _ => t
  }

  function WriteStep(s: World, outcome: Outcome): Option<World> {
    if !Writing(s.pc) then None
    else if outcome.Refused? then Some(s.(pc := Tail))
    else if s.server.None? || s.server.value.rv != s.el.rv then None
    else if outcome.Lost? then Some(Accepted(s).(pc := Tail))
    else Some(Accepted(s).(pc := AfterWrite(s.pc), el := Sent(s).(rv := s.nextRv), orphanRun := s.orphanRun || s.pc.Orphaning?))
  }

  function FetchStep(s: World, ok: bool): Option<World> {
    var fetches := s.pc.Fetching? || s.pc.CreateFetch? || s.pc.CreateRefetch? || s.pc.OutcomeFetch? || s.pc.DeleteFetch? || s.pc.DeleteRefetch?;
    if !fetches then None
    else if !ok then Some(s.(pc := Tail))
    else if s.server.None? then None
    else
      var next := match s.pc
        case Fetching(evt) => Deciding(evt)
        case CreateFetch => CreateStamp
        case CreateRefetch => CreateCall
        case OutcomeFetch(done) => OutcomeStamp(done)
        case DeleteFetch => DeleteCall
        case _ => DeleteStatus;
      Some(s.(el := s.server.value, pc := next))
  }

  /** The decisions `processItem` takes on its copy alone. */
  function DecideStep(s: World): Option<World> {
    match s.pc
    case Deciding(evt) =>
      if IsPaused(s.el.annotations) then Some(s.(pc := Tail))
      else if s.el.deleting && !ShouldDelete(s.el.annotations) && FINALIZER in s.el.finalizers then Some(s.(pc := Orphaning(evt)))
      else Some(s.(pc := Checking(evt)))
    case Checking(evt) =>
      Some(s.(pc := if CreateIncomplete(s.el.annotations) then Probing(evt) else Securing(evt)))
    case Securing(evt) =>
      Some(s.(pc := if !s.el.deleting && FINALIZER !in s.el.finalizers then Adding(evt) else Dispatching(evt)))
    case Dispatching(evt) =>
      Some(s.(pc := if evt.Create? then CreateFetch else if evt.Delete? then DeleteFetch else Tail))
    case _ => None
  }

  /** After a successful Observe during recovery: record success, wait, or roll the announcement back. */
  function JudgeStep(s: World): Option<World> {
    match s.pc
    case Judging(evt, seen, _) =>
      if seen then Some(s.(pc := Recording(evt, true, s.clock)))
      else if PendingDuring(s.el.annotations, GRACE, s.clock) then Some(Rest(s))
      else Some(s.(pc := Recording(evt, false, s.clock)))
    case _ => None
  }

  function CreateStep(s: World, landed: bool, visibleAt: nat, ok: bool): Option<World> {
    if !s.pc.CreateCall? || (ok && !landed) || visibleAt < s.clock then None
    else
      var shown := if s.ext.Some? then Min(s.ext.value, visibleAt) else visibleAt;
      Some(s.(pc := OutcomeFetch(ok), attempt := Some(Attempt(landed, visibleAt)),
              ext := if landed then Some(shown) else s.ext, orphaned := s.orphaned && !landed))
  }

  function DeleteStep(s: World, gone: bool, ok: bool): Option<World> {
    if !s.pc.DeleteCall? || (ok && !gone) then None
    else
      var t := if gone then s.(ext := None, attempt := None, orphaned := false) else s;
      Some(t.(pc := if ok then DeleteRefetch else Tail))
  }

  function StatusStep(s: World, outcome: Outcome): Option<World> {
    if !s.pc.Tail? && !s.pc.DeleteStatus? then None
    else if outcome.Refused? then Some(s.(pc := Tail))
    else if s.server.None? || (s.pc.DeleteStatus? && s.server.value.rv != s.el.rv) then None
    else
      var t := Store(s, s.server.value);
      if s.pc.DeleteStatus? && outcome.Applied? then Some(t.(el := s.server.value.(rv := s.nextRv), pc := DeleteFinal))
      else Some(t.(pc := Tail))
  }

  function Step(s: World, a: Action): Option<World> {
    match a
    case Tick(now) => if now >= s.clock then Some(s.(clock := now)) else None
    case Edit(annotations, spec) =>
      if s.server.Some? then Some(Store(s, s.server.value.(annotations := annotations, spec := spec))) else None
    case RequestDelete =>
      if s.server.Some? && !s.server.value.deleting then Some(Store(s, s.server.value.(deleting := true))) else None
    case Recreate(annotations, spec) =>
      if s.server.None? then Some(Store(s, Obj(0, [], false, annotations, spec))) else None
    case Crash => Some(Rest(s))
    case Begin(evt) => if s.pc.Idle? then Some(s.(pc := Fetching(evt))) else None
    case Fetch(ok) => FetchStep(s, ok)
    case Decide => DecideStep(s)
    case Probe(ok) =>
      if !s.pc.Probing? then None
      else if !ok then Some(s.(pc := Tail))
      else Some(s.(pc := Judging(s.pc.evt, s.ext.Some? && s.ext.value <= s.clock, s.clock)))
    case Judge => JudgeStep(s)
    case Write(outcome) => WriteStep(s, outcome)
    case ReadClock =>
      (match s.pc
       case CreateStamp => Some(s.(pc := CreatePend, pendingAt := s.clock))
       case OutcomeStamp(ok) => Some(s.(pc := OutcomeWrite(ok, s.clock)))
       case _ => None)
    case CallCreate(landed, visibleAt, ok) => CreateStep(s, landed, visibleAt, ok)
    case CallDelete(gone, ok) => DeleteStep(s, gone, ok)
    case Status(outcome) => StatusStep(s, outcome)
    case Finish => if s.pc.Tail? then Some(Rest(s)) else None
  }

  function Run(s: World, acts: seq<Action>): Option<World> {
    if acts == [] then Some(s)
    else
      var r := Run(s, acts[..|acts| - 1]);
      if r.None? then None else Step(r.value, acts[|acts| - 1])
  }

  // ----- no leaked resource -----------------------------------------------

  predicate Guarded(s: World) {
    s.server.Some? && FINALIZER in s.server.value.finalizers
  }

  /** Only the runtime's own finalizer is ever on the object. */
  predicate OwnFinalizer(f: seq<string>) {
    f == [] || f == [FINALIZER]
  }

  /** The worker's copy equals the stored version whenever their versions agree. */
  predicate Fresh(s: World) {
    && s.el.rv < s.nextRv
    && OwnFinalizer(s.el.finalizers)
    && (s.server.Some? ==>
          && s.server.value.rv < s.nextRv
          && OwnFinalizer(s.server.value.finalizers)
          && (s.server.value.deleting ==> FINALIZER in s.server.value.finalizers)
          && (s.server.value.rv == s.el.rv ==> s.server.value == s.el))
  }

  /** `processItem` works on its first copy. */
  predicate OnFirstCopy(pc: Pc) {
    pc.Deciding? || pc.Orphaning? || pc.Checking? || pc.Probing? || pc.Judging? || pc.Recording? || pc.Securing? || pc.Adding?
  }

  predicate Creating(pc: Pc) {
    pc.CreateStamp? || pc.CreatePend? || pc.CreateRefetch? || pc.CreateCall?
  }

  /** The worker goes on to `handleCreate` without writing to the object first. */
  predicate WillCreate(s: World) {
    || (s.pc == Checking(Create) && !CreateIncomplete(s.el.annotations))
    || s.pc == Securing(Create) || s.pc == Dispatching(Create) || s.pc.CreateFetch?
  }

  /** What each program point knows about the finalizer and the resource. */
  predicate Guarding(s: World) {
    && (s.orphanRun && WillCreate(s) ==> s.server.None?)
    && (s.pc.Idle? || s.pc.Fetching? || s.pc.Deciding? || s.pc.Orphaning? ==> !s.orphanRun)
    && (s.pc.Orphaning? ==> s.el.deleting && !ShouldDelete(s.el.annotations))
    && (s.pc.Adding? ==> FINALIZER !in s.el.finalizers && !s.el.deleting)
    && (OnFirstCopy(s.pc) && !s.orphanRun ==>
          && (FINALIZER in s.el.finalizers ==> Guarded(s))
          && (s.el.deleting ==> FINALIZER in s.el.finalizers))
    && (OnFirstCopy(s.pc) && s.orphanRun ==> s.el.deleting && FINALIZER !in s.el.finalizers)
    && (s.pc == Dispatching(Create) || s.pc.CreateFetch? ==> s.orphanRun || Guarded(s))
    && (Creating(s.pc) ==> Guarded(s) && !s.orphanRun)
    && (s.pc.DeleteRefetch? || s.pc.DeleteStatus? || s.pc.DeleteFinal? ==> s.ext.None?)
  }

  /** The resource never outlives its object's protection, unless it was orphaned on purpose. */
  predicate NoLeak(s: World) {
    s.ext.Some? ==> s.orphaned || Guarded(s)
  }

  predicate Safe(s: World) {
    Fresh(s) && Guarding(s) && NoLeak(s)
  }

  /** The one interleaving that must not happen: recreating the object while
  the reconcile that orphaned its predecessor is on its way to create. */
  predicate Orderly(s: World, a: Action) {
    a.Recreate? ==> !(s.orphanRun && WillCreate(s))
  }

  ghost predicate OrderlyRun(s: World, acts: seq<Action>) {
    forall i :: 0 <= i < |acts| ==>
      Run(s, acts[..i]).Some? && Orderly(Run(s, acts[..i]).value, acts[i])
  }

  lemma {:induction false} WithoutOwn(f: seq<string>)
    requires OwnFinalizer(f)
    ensures Without(f, FINALIZER) == []
  {
    if f != [] {
      assert f[..0] == [];
    }
  }

  lemma {:induction false} WriteKeepsFresh(s: World, outcome: Outcome)
    requires Fresh(s) && (s.pc.Adding? ==> FINALIZER !in s.el.finalizers && !s.el.deleting) && WriteStep(s, outcome).Some?
    ensures Fresh(WriteStep(s, outcome).value)
  {
    hide Without, WriteTime;
    WithoutOwn(s.el.finalizers);
  }

  lemma {:induction false} WriteKeepsGuarding(s: World, outcome: Outcome)
    requires Safe(s) && WriteStep(s, outcome).Some?
    ensures Guarding(WriteStep(s, outcome).value)
  {
    hide Without, WriteTime, ShouldDelete, CreateIncomplete, NoLeak;
    WithoutOwn(s.el.finalizers);
  }

  lemma {:induction false} WriteKeepsNoLeak(s: World, outcome: Outcome)
    requires Safe(s) && WriteStep(s, outcome).Some?
    ensures NoLeak(WriteStep(s, outcome).value)
  {
    hide Without, WriteTime, ShouldDelete, CreateIncomplete, WillCreate, Creating;
    WithoutOwn(s.el.finalizers);
  }

  lemma {:induction false} WriteKeepsSafe(s: World, outcome: Outcome)
    requires Safe(s) && WriteStep(s, outcome).Some?
    ensures Safe(WriteStep(s, outcome).value)
  {
    hide Fresh, NoLeak, WriteStep, WillCreate, Creating, OnFirstCopy, Guarded, ShouldDelete;
    WriteKeepsFresh(s, outcome);
    WriteKeepsGuarding(s, outcome);
    WriteKeepsNoLeak(s, outcome);
  }

  /** A step that moves nothing but the program point and the clock. */
  lemma {:induction false} OnlyGuardingMatters(s: World, t: World)
    requires t.server == s.server && t.nextRv == s.nextRv && t.ext == s.ext && t.el == s.el && t.orphaned == s.orphaned
    ensures Fresh(t) == Fresh(s) && NoLeak(t) == NoLeak(s)
  {
  }

  lemma {:induction false} UserKeepsSafe(s: World, a: Action)
    requires Safe(s) && Orderly(s, a) && Step(s, a).Some? && (a.Edit? || a.RequestDelete? || a.Recreate?)
    ensures Safe(Step(s, a).value)
  {
    hide ShouldDelete;
  }

  lemma {:induction false} FetchKeepsSafe(s: World, ok: bool)
    requires Safe(s) && FetchStep(s, ok).Some?
    ensures Safe(FetchStep(s, ok).value)
  {
    hide ShouldDelete;
  }

  lemma {:induction false} DecideKeepsSafe(s: World)
    requires Safe(s)
    ensures DecideStep(s).Some? ==> Safe(DecideStep(s).value)
  {
    hide ShouldDelete, IsPaused, CreateIncomplete, Fresh, NoLeak;
    if DecideStep(s).Some? {
      OnlyGuardingMatters(s, DecideStep(s).value);
    }
  }

  lemma {:induction false} JudgeKeepsSafe(s: World)
    requires Safe(s)
    ensures JudgeStep(s).Some? ==> Safe(JudgeStep(s).value)
  {
    hide ShouldDelete, PendingDuring, CreateIncomplete, Fresh, NoLeak;
    if JudgeStep(s).Some? {
      OnlyGuardingMatters(s, JudgeStep(s).value);
    }
  }

  lemma {:induction false} CreateKeepsSafe(s: World, landed: bool, visibleAt: nat, ok: bool)
    requires Safe(s) && CreateStep(s, landed, visibleAt, ok).Some?
    ensures Safe(CreateStep(s, landed, visibleAt, ok).value)
  {
    hide ShouldDelete, CreateIncomplete, OwnFinalizer;
  }

  lemma {:induction false} DeleteKeepsSafe(s: World, gone: bool, ok: bool)
    requires Safe(s) && DeleteStep(s, gone, ok).Some?
    ensures Safe(DeleteStep(s, gone, ok).value)
  {
    hide ShouldDelete, CreateIncomplete, OwnFinalizer;
  }

  lemma {:induction false} StatusKeepsSafe(s: World, outcome: Outcome)
    requires Safe(s) && StatusStep(s, outcome).Some?
    ensures Safe(StatusStep(s, outcome).value)
  {
    hide ShouldDelete, CreateIncomplete;
  }

  lemma {:induction false} OtherKeepsSafe(s: World, a: Action)
    requires Safe(s) && Step(s, a).Some?
    requires a.Tick? || a.Crash? || a.Begin? || a.Probe? || a.ReadClock? || a.Finish?
    ensures Safe(Step(s, a).value)
  {
    hide ShouldDelete, CreateIncomplete, Fresh, NoLeak, WriteStep, FetchStep, DecideStep, JudgeStep, CreateStep, DeleteStep, StatusStep, Store;
    OnlyGuardingMatters(s, Step(s, a).value);
  }

  lemma {:induction false} StepKeepsSafe(s: World, a: Action)
    requires Safe(s) && Orderly(s, a) && Step(s, a).Some?
    ensures Safe(Step(s, a).value)
  {
    hide Safe, WriteStep, FetchStep, DecideStep, JudgeStep, CreateStep, DeleteStep, StatusStep, Store, Orderly;
    match a
    case Write(outcome) => WriteKeepsSafe(s, outcome);
    case Fetch(ok) => FetchKeepsSafe(s, ok);
    case Decide => DecideKeepsSafe(s);
    case Judge => JudgeKeepsSafe(s);
    case CallCreate(landed, visibleAt, ok) => CreateKeepsSafe(s, landed, visibleAt, ok);
    case CallDelete(gone, ok) => DeleteKeepsSafe(s, gone, ok);
    case Status(outcome) => StatusKeepsSafe(s, outcome);
    case Edit(_, _) => UserKeepsSafe(s, a);
    case RequestDelete => UserKeepsSafe(s, a);
    case Recreate(_, _) => UserKeepsSafe(s, a);
    case _ => OtherKeepsSafe(s, a);
  }

  lemma {:induction false} SafeFrom(s: World, acts: seq<Action>)
    requires Safe(s) && Run(s, acts).Some? && OrderlyRun(s, acts)
    ensures Safe(Run(s, acts).value)
  {
    hide Step, Safe, Orderly;
    if acts == [] {
    } else {
      var before := acts[..|acts| - 1];
      assert forall i :: 0 <= i < |before| ==> acts[..i] == before[..i];
      SafeFrom(s, before);
      StepKeepsSafe(Run(s, before).value, acts[|acts| - 1]);
    }
  }

  lemma {:induction false} SafeInAnyRun(clock: nat, acts: seq<Action>)
    requires Run(Start(clock), acts).Some? && OrderlyRun(Start(clock), acts)
    ensures Safe(Run(Start(clock), acts).value)
  {
    hide Safe, Run, Start, OrderlyRun;
    StartIsSafe(clock);
    SafeFrom(Start(clock), acts);
  }

  /** No leaked external resource: in every run, with any events, crashes,
  conflicts, lost replies and user edits, an existing external resource has its
  managed object stored with the finalizer, unless it was orphaned by policy. */
  lemma {:induction false} NoLeakInAnyRun(clock: nat, acts: seq<Action>)
    requires Run(Start(clock), acts).Some? && OrderlyRun(Start(clock), acts)
    ensures
      var s := Run(Start(clock), acts).value;
      s.ext.Some? && !s.orphaned ==> s.server.Some? && FINALIZER in s.server.value.finalizers
  {
    hide Run, Start;
    SafeInAnyRun(clock, acts);
  }

  lemma {:induction false} StartIsSafe(clock: nat)
    ensures Safe(Start(clock))
  {
  }

  /** A resource becomes orphaned only when the stored object was being deleted under a policy that keeps the resource. */
  lemma {:induction false} OrphanedOnlyByPolicy(s: World, a: Action)
    requires Safe(s) && Step(s, a).Some? && !s.orphaned && Step(s, a).value.orphaned
    ensures s.server.Some? && s.server.value.deleting && !ShouldDelete(s.server.value.annotations)
  {
    hide ShouldDelete, IsPaused, CreateIncomplete, PendingDuring, WriteTime, Without;
  }

  /** A run extended by one action. */
  lemma {:induction false} Extend(s0: World, acts: seq<Action>, s: World, a: Action) returns (more: seq<Action>, t: World)
    requires Run(s0, acts) == Some(s) && Step(s, a).Some?
    ensures more == acts + [a] && t == Step(s, a).value && Run(s0, more) == Some(t)
  {
    hide Step;
    more, t := acts + [a], Step(s, a).value;
    assert more[..|more| - 1] == acts;
  }

  /** The first reconcile of a new object puts the finalizer on it. */
  lemma {:induction false} NewObjectSecured(clock: nat, annotations: Annotations) returns (acts: seq<Action>, s: World)
    requires !IsPaused(annotations) && !CreateIncomplete(annotations)
    ensures Run(Start(clock), acts) == Some(s)
    ensures
      var o := Obj(2, [FINALIZER], false, annotations, 0);
      s == World(Some(o), 3, None, clock, Dispatching(Create), o, 0, None, false, false)
  {
    hide IsPaused, CreateIncomplete, Run;
    EmptyRun(clock);
    acts, s := Extend(Start(clock), [], Start(clock), Recreate(annotations, 0));
    acts, s := NewObjectTaken(clock, acts, s);
    acts, s := Extend(Start(clock), acts, s, Decide);
    assert [] + [FINALIZER] == [FINALIZER];
    acts, s := Extend(Start(clock), acts, s, Write(Applied));
  }

  lemma {:induction false} NewObjectTaken(clock: nat, acts0: seq<Action>, s0: World) returns (acts: seq<Action>, s: World)
    requires Run(Start(clock), acts0) == Some(s0) && s0.pc.Idle? && s0.server.Some? && !s0.server.value.deleting
    requires !IsPaused(s0.server.value.annotations) && !CreateIncomplete(s0.server.value.annotations)
    ensures Run(Start(clock), acts) == Some(s) && s == s0.(pc := Securing(Create), el := s0.server.value)
  {
    hide IsPaused, CreateIncomplete, ShouldDelete, Run;
    acts, s := Extend(Start(clock), acts0, s0, Begin(Create));
    acts, s := Extend(Start(clock), acts, s, Fetch(true));
    acts, s := Extend(Start(clock), acts, s, Decide);
    acts, s := Extend(Start(clock), acts, s, Decide);
  }

  lemma {:induction false} EmptyRun(clock: nat)
    ensures Run(Start(clock), []) == Some(Start(clock))
  {
  }

  /** It is deleted under an orphaning policy, and a Create event removes the finalizer. */
  lemma {:induction false} ObjectOrphaned(clock: nat, policy: Annotations) returns (acts: seq<Action>, s: World)
    requires !ShouldDelete(policy) && !IsPaused(policy) && !CreateIncomplete(policy)
    ensures Run(Start(clock), acts) == Some(s)
    ensures s == World(None, 5, None, clock, Checking(Create), Obj(4, [], true, policy, 0), 0, None, false, true)
  {
    hide ShouldDelete, IsPaused, CreateIncomplete, Without, Run;
    acts, s := NewObjectSecured(clock, policy);
    acts, s := Extend(Start(clock), acts, s, Crash);
    acts, s := Extend(Start(clock), acts, s, RequestDelete);
    acts, s := FinalizerRemoved(clock, acts, s);
  }

  lemma {:induction false} FinalizerRemoved(clock: nat, acts0: seq<Action>, s0: World) returns (acts: seq<Action>, s: World)
    requires Run(Start(clock), acts0) == Some(s0) && s0.pc.Idle? && s0.server.Some? && s0.server.value.deleting
    requires s0.server.value.finalizers == [FINALIZER]
    requires !IsPaused(s0.server.value.annotations) && !ShouldDelete(s0.server.value.annotations)
    ensures Run(Start(clock), acts) == Some(s)
    ensures s == s0.(pc := Checking(Create), server := None, nextRv := s0.nextRv + 1, attempt := None,
                     el := s0.server.value.(rv := s0.nextRv, finalizers := []), orphaned := s0.ext.Some?, orphanRun := true)
  {
    hide ShouldDelete, IsPaused, Without, Run;
    WithoutOwn([FINALIZER]);
    acts, s := Extend(Start(clock), acts0, s0, Begin(Create));
    acts, s := Extend(Start(clock), acts, s, Fetch(true));
    acts, s := Extend(Start(clock), acts, s, Decide);
    acts, s := Extend(Start(clock), acts, s, Write(Applied));
  }

  /** The same reconcile goes on to the new object. */
  lemma {:induction false} NewObjectPickedUp(clock: nat, policy: Annotations) returns (acts: seq<Action>, s: World)
    requires !ShouldDelete(policy) && !IsPaused(policy) && !CreateIncomplete(policy)
    ensures Run(Start(clock), acts) == Some(s)
    ensures
      var o := Obj(5, [], false, policy, 0);
      s == World(Some(o), 6, None, clock, CreateStamp, o, 0, None, false, true)
  {
    hide ShouldDelete, IsPaused, CreateIncomplete, Run;
    acts, s := ObjectOrphaned(clock, policy);
    acts, s := Extend(Start(clock), acts, s, Recreate(policy, 0));
    acts, s := Extend(Start(clock), acts, s, Decide);
    acts, s := Extend(Start(clock), acts, s, Decide);
    acts, s := Extend(Start(clock), acts, s, Decide);
    acts, s := Extend(Start(clock), acts, s, Fetch(true));
  }

  // ----- the ordering condition is exact ----------------------------------

  /** Some continuation without a further such recreation leaks. */
  ghost predicate CanLeak(s: World) {
    exists acts :: Run(s, acts).Some? && OrderlyRun(s, acts) && !NoLeak(Run(s, acts).value)
  }

  ghost predicate NoneRecreates(acts: seq<Action>) {
    forall i :: 0 <= i < |acts| ==> !acts[i].Recreate?
  }

  lemma {:induction false} NoRecreationIsOrderly(s: World, acts: seq<Action>)
    requires Run(s, acts).Some? && NoneRecreates(acts)
    ensures OrderlyRun(s, acts)
  {
    hide Step, WillCreate;
    if acts == [] {
    } else {
      var before := acts[..|acts| - 1];
      NoRecreationIsOrderly(s, before);
      assert forall i :: 0 <= i < |before| ==> acts[..i] == before[..i] && acts[i] == before[i];
    }
  }

  lemma {:induction false} RunNothing(s: World)
    ensures Run(s, []) == Some(s)
  {
  }

  /** On the way to create, the worker needs no more than its own copy to come to the fetch. */
  lemma {:induction false} OnToFetch(s: World) returns (acts: seq<Action>, t: World)
    requires WillCreate(s) && (OnFirstCopy(s.pc) ==> s.el.deleting)
    ensures NoneRecreates(acts) && Run(s, acts) == Some(t) && t == s.(pc := CreateFetch)
  {
    hide CreateIncomplete, IsPaused, ShouldDelete, Run;
    RunNothing(s);
    acts, t := [], s;
    if t.pc == Checking(Create) {
      acts, t := Extend(s, acts, t, Decide);
    }
    if t.pc == Securing(Create) {
      acts, t := Extend(s, acts, t, Decide);
    }
    if t.pc == Dispatching(Create) {
      acts, t := Extend(s, acts, t, Decide);
    }
  }

  /** From there it creates for whatever object it finds. */
  lemma {:induction false} OnToCreate(s: World, acts0: seq<Action>, s0: World) returns (acts: seq<Action>, t: World)
    requires Run(s, acts0) == Some(s0) && s0.pc.CreateFetch? && NoneRecreates(acts0)
    requires s0.server.Some? && !s0.server.value.deleting
    ensures NoneRecreates(acts) && Run(s, acts) == Some(t)
    ensures t.ext.Some? && !t.orphaned && t.server.Some? && t.server.value.finalizers == s0.server.value.finalizers
  {
    hide WriteTime, Run;
    acts, t := Extend(s, acts0, s0, Fetch(true));
    acts, t := Extend(s, acts, t, ReadClock);
    acts, t := OnToCall(s, acts, t);
  }

  lemma {:induction false} OnToCall(s: World, acts0: seq<Action>, s0: World) returns (acts: seq<Action>, t: World)
    requires Run(s, acts0) == Some(s0) && s0.pc.CreatePend? && NoneRecreates(acts0)
    requires s0.server == Some(s0.el) && !s0.el.deleting
    ensures NoneRecreates(acts) && Run(s, acts) == Some(t)
    ensures t.ext.Some? && !t.orphaned && t.server.Some? && t.server.value.finalizers == s0.server.value.finalizers
  {
    hide WriteTime, Run;
    acts, t := Extend(s, acts0, s0, Write(Applied));
    acts, t := Extend(s, acts, t, Fetch(true));
    acts, t := Extend(s, acts, t, CallCreate(true, t.clock, true));
  }

  /** A recreation in a safe state opens the way to a leak exactly if the
  reconcile that orphaned the predecessor is on its way to create. */
  lemma {:induction false} RecreationLeaksExactly(s: World, annotations: Annotations, spec: int)
    requires Safe(s) && s.server.None?
    ensures CanLeak(Step(s, Recreate(annotations, spec)).value) <==> s.orphanRun && WillCreate(s)
  {
    var a := Recreate(annotations, spec);
    var r := Step(s, a).value;
    if s.orphanRun && WillCreate(s) {
      RecreationLeaks(s, annotations, spec);
    } else {
      StepKeepsSafe(s, a);
      forall acts | Run(r, acts).Some? && OrderlyRun(r, acts)
        ensures NoLeak(Run(r, acts).value)
      {
        SafeFrom(r, acts);
      }
    }
  }

  lemma {:induction false} RecreationLeaks(s: World, annotations: Annotations, spec: int)
    requires Safe(s) && s.server.None? && s.orphanRun && WillCreate(s)
    ensures CanLeak(Step(s, Recreate(annotations, spec)).value)
  {
    hide Run, CreateIncomplete, OrderlyRun;
    var r := Step(s, Recreate(annotations, spec)).value;
    assert WillCreate(r) && r.el == s.el && r.server.value.finalizers == [];
    var acts, t := OnToFetch(r);
    acts, t := OnToCreate(r, acts, t);
    NoRecreationIsOrderly(r, acts);
  }

  /** Without the ordering condition the property fails: under any policy that
  orphans, a Create event that first removes the deleted object's finalizer and
  then finds a new object of the same name creates the external resource for an
  object that has no finalizer. */
  lemma {:induction false} RecreatedDuringOrphaningLeaks(clock: nat, policy: Annotations) returns (acts: seq<Action>, s: World)
    requires !ShouldDelete(policy) && !IsPaused(policy) && !CreateIncomplete(policy)
    ensures Run(Start(clock), acts) == Some(s) && !NoLeak(s)
    ensures s.server.Some? && !s.server.value.deleting && s.ext.Some?
  {
    hide ShouldDelete, IsPaused, CreateIncomplete, WriteTime, Run;
    acts, s := NewObjectPickedUp(clock, policy);
    acts, s := Extend(Start(clock), acts, s, ReadClock);
    acts, s := Extend(Start(clock), acts, s, Write(Applied));
    acts, s := Extend(Start(clock), acts, s, Fetch(true));
    acts, s := Extend(Start(clock), acts, s, CallCreate(true, clock, true));
  }
}
