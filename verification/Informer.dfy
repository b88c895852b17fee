/** What the informer callbacks make of an object that appears, changes or goes. */
module Informer {
  import opened Items
  import opened Meta
  import opened Events

  datatype Trigger = OnChange | OnDelete | OnCreate | OnAny

  datatype Rule = Rule(event: EventType, annotation: string, trigger: Trigger)

  type Fields(==, !new)

  /** The `spec` field: absent, a map, or something that is not a map. */
  datatype Spec = Absent | Fields(fields: Fields) | Malformed

  datatype Object = Object(version: nat, deleted: bool, annotations: Annotations,
                           finalizers: seq<string>, spec: Spec, status: nat)

  datatype Priority = Low | Normal | High

  /** What a callback does; a `direct` event does not go through the dedup map. */
  datatype Verdict = Ignored | Enqueue(event: EventType, priority: Priority, direct: bool)

  // ----- the annotation rules ---------------------------------------------

  predicate Matches(r: Rule, before: Annotations, after: Annotations) {
    var had, has := r.annotation in before, r.annotation in after;
    var changed := had && has && before[r.annotation] != after[r.annotation];
    match r.trigger
    case OnDelete => had && !has
    case OnCreate => has && !had
    case OnChange => changed
    case OnAny => had != has || changed
  }

  function FirstMatch(rules: seq<Rule>, before: Annotations, after: Annotations): (r: Option<EventType>)
  {
    if rules == [] then None
    else if Matches(rules[0], before, after) then Some(rules[0].event)
    else FirstMatch(rules[1..], before, after)
  }

  lemma {:induction false} FirstMatchAt(rules: seq<Rule>, before: Annotations, after: Annotations, i: nat)
    requires i <= |rules| && forall j :: 0 <= j < i ==> !Matches(rules[j], before, after)
    ensures i == |rules| ==> FirstMatch(rules, before, after) == None
    ensures i < |rules| && Matches(rules[i], before, after) ==> FirstMatch(rules, before, after) == Some(rules[i].event)
  {
    if i == 0 {
    } else {
      FirstMatchAt(rules[1..], before, after, i - 1);
    }
  }

  method MatchRules(rules: seq<Rule>, before: Annotations, after: Annotations) returns (r: Option<EventType>)
    ensures r == FirstMatch(rules, before, after)
    ensures r.None? <==> forall i :: 0 <= i < |rules| ==> !Matches(rules[i], before, after)
  {
    var i := 0;
    while i < |rules|
      invariant 0 <= i <= |rules|
      invariant forall j :: 0 <= j < i ==> !Matches(rules[j], before, after)
    {
      FirstMatchAt(rules, before, after, i);
      var rule := rules[i];
      var oldExists, newExists := rule.annotation in before, rule.annotation in after;
      var deleted := !newExists && oldExists;
      var created := newExists && !oldExists;
      var changed := oldExists && newExists && before[rule.annotation] != after[rule.annotation];
      if (rule.trigger == OnDelete && deleted) || (rule.trigger == OnCreate && created)
        || (rule.trigger == OnChange && changed) || (rule.trigger == OnAny && (deleted || created || changed))
      {
        return Some(rule.event);
      }
      i := i + 1;
    }
    FirstMatchAt(rules, before, after, i);
    return None;
  }

  lemma {:induction false} MatchIsFound(rules: seq<Rule>, before: Annotations, after: Annotations, i: nat)
    requires i < |rules| && Matches(rules[i], before, after)
    ensures FirstMatch(rules, before, after).Some?
  {
    if i == 0 {
    } else {
      MatchIsFound(rules[1..], before, after, i - 1);
    }
  }

  const DEFAULT_RULES: seq<Rule> := [Rule(Observe, PAUSED, OnAny), Rule(Create, PENDING, OnDelete)]

  function ValueOf(a: Annotations, key: string): Option<Annotation> {
    if key in a then Some(a[key]) else None
  }

  /** What each trigger means for the annotation's value before and after; the
  first three exclude each other, and any of them is OnAny. */
  lemma {:induction false} TriggersMean(r: Rule, before: Annotations, after: Annotations)
    ensures
      var was, now := ValueOf(before, r.annotation), ValueOf(after, r.annotation);
      && (r.trigger == OnAny ==> (Matches(r, before, after) <==> was != now))
      && (r.trigger == OnCreate ==> (Matches(r, before, after) <==> was.None? && now.Some?))
      && (r.trigger == OnDelete ==> (Matches(r, before, after) <==> was.Some? && now.None?))
      && (r.trigger == OnChange ==> (Matches(r, before, after) <==> was.Some? && now.Some? && was != now))
  {
  }

  // ----- the callbacks ----------------------------------------------------

  datatype Kind = CRCreated | CRUpdated | CRDeleted | CRObserved

  type Actions = map<Kind, EventType>

  function EventFor(actions: Actions, kind: Kind): EventType {
    if kind in actions then actions[kind]
    else match kind
      case CRCreated => Observe
      case CRUpdated => Update
      case CRDeleted => Delete
      case CRObserved => Observe
  }

  function ClassifyAdd(actions: Actions, o: Object): Verdict {
    Enqueue(EventFor(actions, CRCreated),
            if FAILED in o.annotations || PENDING in o.annotations || SUCCEEDED in o.annotations then Low else Normal,
            false)
  }

  function ClassifyUpdate(rules: seq<Rule>, actions: Actions, before: Object, after: Object): Verdict {
    if after.deleted then Enqueue(EventFor(actions, CRDeleted), High, false)
    else
      var m := FirstMatch(rules, before.annotations, after.annotations);
      if m.Some? then Enqueue(m.value, Normal, true)
      else if after.spec.Malformed? || before.spec.Malformed? then Ignored
      else if after.spec != before.spec then Enqueue(EventFor(actions, CRUpdated), High, false)
      else if before.version == after.version then Enqueue(EventFor(actions, CRObserved), Low, false)
      else Ignored
  }

  function ClassifyRemoved(actions: Actions, o: Object): Verdict {
    if o.deleted then Enqueue(EventFor(actions, CRDeleted), High, true) else Ignored
  }

  // ----- the runtime's own writes -----------------------------------------

  /** Everything the worker writes to a live object. */
  datatype Write =
    | SetMarker(key: string, at: nat)
    | DropPending
    | AddFinalizer(finalizer: string)
    | SetStatus(status: nat)

  predicate Own(w: Write) {
    w.SetMarker? ==> w.key in {PENDING, SUCCEEDED, FAILED}
  }

  /** The object a write submits. */
  function Edited(o: Object, w: Write): Object {
    match w
    case SetMarker(key, at) => o.(annotations := WriteTime(o.annotations, key, at))
    case DropPending => o.(annotations := o.annotations - {PENDING})
    case AddFinalizer(f) => o.(finalizers := AddedFinalizer(o.finalizers, f))
    case SetStatus(s) => o.(status := s)
  }

  /** The API server gives every write that changes something a new version. */
  function Written(o: Object, w: Write): Object {
    var e := Edited(o, w);
    if e == o then o else e.(version := o.version + 1)
  }

  function WrittenAll(o: Object, ws: seq<Write>): Object {
    if ws == [] then o else Written(WrittenAll(o, ws[..|ws| - 1]), ws[|ws| - 1])
  }

  predicate AllOwn(ws: seq<Write>) {
    forall i :: 0 <= i < |ws| ==> Own(ws[i])
  }

  /** What one write leaves of an annotation, and of the rest. */
  lemma {:induction false} WriteTouches(o: Object, w: Write, key: string)
    ensures
      var n := Written(o, w);
      && n.spec == o.spec && n.deleted == o.deleted
      && n.version >= o.version && (n.version == o.version ==> n == o)
      && (key in n.annotations <==>
            (w.SetMarker? && w.key == key) || (key in o.annotations && !(w.DropPending? && key == PENDING)))
      && (key in n.annotations && !(w.SetMarker? && w.key == key) ==> n.annotations[key] == o.annotations[key])
  {
    hide Truncate;
  }

  predicate IsMarker(key: string) {
    key in {PENDING, SUCCEEDED, FAILED}
  }

  lemma {:induction false} OwnWritesTouchOnlyMarkers(o: Object, ws: seq<Write>, key: string)
    requires AllOwn(ws)
    ensures
      var n := WrittenAll(o, ws);
      && n.spec == o.spec && n.deleted == o.deleted
      && n.version >= o.version && (n.version == o.version ==> n == o)
      && (!IsMarker(key) ==>
            (key in n.annotations <==> key in o.annotations)
            && (key in o.annotations ==> n.annotations[key] == o.annotations[key]))
      && (key != PENDING && key in o.annotations ==> key in n.annotations)
  {
    hide Written;
    if ws == [] {
    } else {
      OwnWritesTouchOnlyMarkers(o, ws[..|ws| - 1], key);
      assert Own(ws[|ws| - 1]);
      WriteTouches(WrittenAll(o, ws[..|ws| - 1]), ws[|ws| - 1], key);
    }
  }

  /** Rules that watch a marker only for its disappearance. */
  predicate Quiet(rules: seq<Rule>) {
    forall i :: 0 <= i < |rules| ==>
      rules[i].annotation in {PENDING, SUCCEEDED, FAILED} ==> rules[i].trigger == OnDelete
  }

  lemma {:induction false} OwnWritesMatch(r: Rule, o: Object, ws: seq<Write>)
    requires AllOwn(ws) && Quiet([r])
    ensures
      var n := WrittenAll(o, ws);
      Matches(r, o.annotations, n.annotations) <==>
        r == Rule(r.event, PENDING, OnDelete) && PENDING in o.annotations && PENDING !in n.annotations
  {
    assert [r][0] == r;
    OwnWritesTouchOnlyMarkers(o, ws, r.annotation);
  }

  lemma {:induction false} OwnWritesFirstMatch(rules: seq<Rule>, o: Object, ws: seq<Write>)
    requires AllOwn(ws) && Quiet(rules)
    ensures
      var n := WrittenAll(o, ws);
      FirstMatch(rules, o.annotations, n.annotations) ==
        if PENDING in o.annotations && PENDING !in n.annotations then PendingRule(rules) else None
  {
    if rules == [] {
    } else {
      assert Quiet([rules[0]]);
      assert Quiet(rules[1..]);
      OwnWritesMatch(rules[0], o, ws);
      OwnWritesFirstMatch(rules[1..], o, ws);
    }
  }

  /** What the first rule on the disappearance of the pending marker asks for. */
  function PendingRule(rules: seq<Rule>): Option<EventType> {
    if rules == [] then None
    else if rules[0].annotation == PENDING && rules[0].trigger == OnDelete then Some(rules[0].event)
    else PendingRule(rules[1..])
  }

  /** Any number of the runtime's own writes, seen by the informer as one
  update, enqueue nothing unless together they removed the pending marker. */
  lemma {:induction false} OwnWritesUnderQuietRules(rules: seq<Rule>, actions: Actions, o: Object, ws: seq<Write>)
    requires AllOwn(ws) && Quiet(rules) && !o.deleted && WrittenAll(o, ws).version != o.version
    ensures
      var n := WrittenAll(o, ws);
      var rule := PendingRule(rules);
      ClassifyUpdate(rules, actions, o, n) ==
        if PENDING in o.annotations && PENDING !in n.annotations && rule.Some?
        then Enqueue(rule.value, Normal, true) else Ignored
  {
    OwnWritesTouchOnlyMarkers(o, ws, PENDING);
    OwnWritesFirstMatch(rules, o, ws);
  }

  /** Under the default rules: nothing, except that a removed pending marker enqueues a Create. */
  lemma {:induction false} OwnWritesUnderDefaultRules(actions: Actions, o: Object, ws: seq<Write>)
    requires AllOwn(ws) && !o.deleted && WrittenAll(o, ws).version != o.version
    ensures
      var n := WrittenAll(o, ws);
      ClassifyUpdate(DEFAULT_RULES, actions, o, n) ==
        if PENDING in o.annotations && PENDING !in n.annotations
        then Enqueue(Create, Normal, true) else Ignored
  {
    assert PAUSED[10] != PENDING[10] && PAUSED[10] != SUCCEEDED[10] && PAUSED[10] != FAILED[10];
    assert PendingRule(DEFAULT_RULES[1..]) == Some(Create);
    OwnWritesUnderQuietRules(DEFAULT_RULES, actions, o, ws);
  }

  /** Under the default rules, whoever pauses, un-pauses or otherwise touches the
  pause annotation of a live object has it observed at normal priority, even if
  the map holds its digest. */
  lemma {:induction false} PauseIsNoticed(actions: Actions, o: Object, n: Object)
    requires !n.deleted && ValueOf(o.annotations, PAUSED) != ValueOf(n.annotations, PAUSED)
    ensures ClassifyUpdate(DEFAULT_RULES, actions, o, n) == Enqueue(Observe, Normal, true)
  {
    TriggersMean(DEFAULT_RULES[0], o.annotations, n.annotations);
    FirstMatchAt(DEFAULT_RULES, o.annotations, n.annotations, 0);
  }

  ghost predicate NeverTriggersItself(rules: seq<Rule>, actions: Actions) {
    forall o: Object, ws: seq<Write> |
      && AllOwn(ws) && DropPending !in ws
      && !o.deleted && WrittenAll(o, ws).version != o.version ::
      ClassifyUpdate(rules, actions, o, WrittenAll(o, ws)) == Ignored
  }

  lemma {:induction false} PendingStays(o: Object, ws: seq<Write>)
    requires PENDING in o.annotations && DropPending !in ws
    ensures PENDING in WrittenAll(o, ws).annotations
  {
    if ws == [] {
    } else {
      PendingStays(o, ws[..|ws| - 1]);
    }
  }

  /** A rule list keeps the runtime from waking itself, whatever it writes short
  of removing the pending marker, exactly if it watches markers only for
  their disappearance. */
  lemma {:induction false} QuietRulesAreTheSafeOnes(rules: seq<Rule>, actions: Actions)
    ensures NeverTriggersItself(rules, actions) <==> Quiet(rules)
  {
    if Quiet(rules) {
      forall o: Object, ws: seq<Write> |
        && AllOwn(ws) && DropPending !in ws
        && !o.deleted && WrittenAll(o, ws).version != o.version
        ensures ClassifyUpdate(rules, actions, o, WrittenAll(o, ws)) == Ignored
      {
        if PENDING in o.annotations {
          PendingStays(o, ws);
        }
        OwnWritesUnderQuietRules(rules, actions, o, ws);
      }
    } else {
      var i :| 0 <= i < |rules| &&
        rules[i].annotation in {PENDING, SUCCEEDED, FAILED} && rules[i].trigger != OnDelete;
      LoudRuleTriggers(rules, actions, i);
    }
  }

  lemma {:induction false} LoudRuleTriggers(rules: seq<Rule>, actions: Actions, i: nat)
    requires i < |rules| && rules[i].annotation in {PENDING, SUCCEEDED, FAILED} && rules[i].trigger != OnDelete
    ensures !NeverTriggersItself(rules, actions)
  {
    var key := rules[i].annotation;
    var before: Annotations := if rules[i].trigger == OnChange then map[key := Text("")] else map[];
    var o := Object(0, false, before, [], Absent, 0);
    var ws := [SetMarker(key, SECOND)];
    assert ws[..|ws| - 1] == [] && WrittenAll(o, []) == o;
    var n := WrittenAll(o, ws);
    assert n == Written(o, ws[0]);
    assert key in n.annotations && n.annotations[key] == Stamp(Truncate(SECOND));
    assert Matches(rules[i], o.annotations, n.annotations);
    MatchIsFound(rules, o.annotations, n.annotations, i);
    assert ClassifyUpdate(rules, actions, o, n) != Ignored;
  }

  /** Nothing else is lost: an update is ignored exactly if the object is live, no
  watched annotation moved, and either a spec cannot be read or it is a new
  version with the old spec. */
  lemma {:induction false} IgnoredUpdates(rules: seq<Rule>, actions: Actions, o: Object, n: Object)
    ensures ClassifyUpdate(rules, actions, o, n) == Ignored <==>
      && !n.deleted
      && (o.spec.Malformed? || n.spec.Malformed? || (n.spec == o.spec && n.version != o.version))
      && forall i :: 0 <= i < |rules| ==> !Matches(rules[i], o.annotations, n.annotations)
  {
    if i :| 0 <= i < |rules| && Matches(rules[i], o.annotations, n.annotations) {
      MatchIsFound(rules, o.annotations, n.annotations, i);
    } else {
      FirstMatchAt(rules, o.annotations, n.annotations, |rules|);
    }
  }

  // ----- what first sight tells -------------------------------------------

  /** The last of the writes to touch the pending marker set it. */
  predicate PendingStands(ws: seq<Write>) {
    if ws == [] then false
    else
      var w := ws[|ws| - 1];
      if w.SetMarker? && w.key == PENDING then true
      else if w.DropPending? then false
      else PendingStands(ws[..|ws| - 1])
  }

  predicate OutcomeRecorded(ws: seq<Write>) {
    exists i :: 0 <= i < |ws| && ws[i].SetMarker? && ws[i].key in {SUCCEEDED, FAILED}
  }

  predicate Marked(o: Object) {
    FAILED in o.annotations || PENDING in o.annotations || SUCCEEDED in o.annotations
  }

  lemma {:induction false} OutcomeRecordedGrows(ws: seq<Write>, w: Write)
    ensures OutcomeRecorded(ws + [w]) <==> OutcomeRecorded(ws) || (w.SetMarker? && w.key in {SUCCEEDED, FAILED})
  {
    var all := ws + [w];
    assert all[|ws|] == w;
    assert forall i :: 0 <= i < |ws| ==> all[i] == ws[i];
  }

  lemma {:induction false} NoneRecorded()
    ensures !OutcomeRecorded([])
    ensures PENDING != SUCCEEDED && PENDING != FAILED
  {
    assert PENDING[26] != SUCCEEDED[26] && PENDING[26] != FAILED[26];
  }

  lemma {:induction false} MarkersTell(o: Object, ws: seq<Write>)
    requires AllOwn(ws) && !Marked(o)
    ensures
      var n := WrittenAll(o, ws).annotations;
      && (PENDING in n <==> PendingStands(ws))
      && (SUCCEEDED in n || FAILED in n <==> OutcomeRecorded(ws))
  {
    hide Written, OutcomeRecorded;
    NoneRecorded();
    if ws == [] {
    } else {
      var before, w := ws[..|ws| - 1], ws[|ws| - 1];
      assert ws == before + [w];
      MarkersTell(o, before);
      OutcomeRecordedGrows(before, w);
      assert Own(w);
      WriteTouches(WrittenAll(o, before), w, PENDING);
      WriteTouches(WrittenAll(o, before), w, SUCCEEDED);
      WriteTouches(WrittenAll(o, before), w, FAILED);
    }
  }

  /** An object the informer reports for the first time, say after a restart, is
  queued with low priority exactly if the runtime has taken it up before: some
  create outcome was recorded on it, or a create announcement stands. */
  lemma {:induction false} LowPriorityMeansTakenUp(actions: Actions, o: Object, ws: seq<Write>)
    requires AllOwn(ws) && !Marked(o)
    ensures ClassifyAdd(actions, WrittenAll(o, ws)).priority == Low <==> OutcomeRecorded(ws) || PendingStands(ws)
  {
    MarkersTell(o, ws);
  }
}
