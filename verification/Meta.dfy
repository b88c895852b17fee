/** Object metadata: the create markers, the policies and the finalizer list. */
module Meta {
  import opened Items

  const SECOND: Time := 1_000_000_000

  const PENDING := "krateo.io/external-create-pending"
  const SUCCEEDED := "krateo.io/external-create-succeeded"
  const FAILED := "krateo.io/external-create-failed"
  const PAUSED := "krateo.io/paused"
  const MANAGEMENT_POLICY := "krateo.io/management-policy"
  const DELETION_POLICY := "krateo.io/deletion-policy"

  /** An annotation value: a text that parses as an RFC 3339 time, or any other text. */
  datatype Annotation = Text(text: string) | Stamp(at: nat)

  type Annotations = map<string, Annotation>

  // ----- markers ----------------------------------------------------------

  /** Absent and malformed markers read as the zero time. */
  function ReadTime(a: Annotations, key: string): nat {
    if key in a && a[key].Stamp? then a[key].at else 0
  }

  /** The marker format has whole seconds. */
  function Truncate(t: nat): nat {
    t / SECOND * SECOND
  }

  function WriteTime(a: Annotations, key: string, t: nat): Annotations {
    a[key := Stamp(Truncate(t))]
  }

  predicate CreateIncomplete(a: Annotations) {
    var pending, succeeded, failed := ReadTime(a, PENDING), ReadTime(a, SUCCEEDED), ReadTime(a, FAILED);
    pending != 0 && pending > (if failed > succeeded then failed else succeeded)
  }

  predicate PendingDuring(a: Annotations, period: Time, now: Time) {
    ReadTime(a, PENDING) != 0 && now - ReadTime(a, PENDING) < period
  }

  /** What is written is read back, less the fraction of a second. */
  lemma {:induction false} MarkerRoundTrip(a: Annotations, key: string, t: nat, other: string)
    ensures t - SECOND < ReadTime(WriteTime(a, key, t), key) <= t
    ensures other != key ==> ReadTime(WriteTime(a, key, t), other) == ReadTime(a, other)
  {
    assert t == t / SECOND * SECOND + t % SECOND;
  }

  /** A marker that is not a time counts as absent, and an absent one as no time at all. */
  lemma {:induction false} MalformedReadsAsAbsent(a: Annotations, key: string, text: string)
    ensures ReadTime(a[key := Text(text)], key) == ReadTime(a - {key}, key) == 0
  {
  }

  lemma {:induction false} TruncateIsMonotone(t: nat, u: nat)
    requires t <= u
    ensures Truncate(t) <= Truncate(u)
  {
    assert t / SECOND <= u / SECOND;
  }

  /** A create that has just been announced shows as incomplete exactly if it
  falls in a later second than every recorded outcome: an announcement within
  the second of an earlier outcome is invisible to recovery. */
  lemma {:induction false} AnnouncedCreateIsNoticed(a: Annotations, t: nat)
    requires t >= SECOND
    ensures CreateIncomplete(WriteTime(a, PENDING, t)) <==>
              Truncate(t) > ReadTime(a, SUCCEEDED) && Truncate(t) > ReadTime(a, FAILED)
  {
    assert t / SECOND >= 1;
  }

  /** Recording an outcome no earlier than the announcement completes the create. */
  lemma {:induction false} OutcomeCompletesCreate(a: Annotations, t: nat, u: nat, outcome: string)
    requires t <= u && outcome in {SUCCEEDED, FAILED} && ReadTime(a, PENDING) == Truncate(t)
    ensures !CreateIncomplete(WriteTime(a, outcome, u))
  {
    TruncateIsMonotone(t, u);
  }

  // ----- policies ---------------------------------------------------------

  /** The policy text, or the default where it is missing or empty; None is a text that names a time. */
  function Policy(a: Annotations, key: string, default: string): Option<string> {
    if key !in a then Some(default)
    else if a[key].Stamp? then None
    else if a[key].text == "" then Some(default)
    else Some(a[key].text)
  }

  predicate ShouldDelete(a: Annotations) {
    var mp := Policy(a, MANAGEMENT_POLICY, "default");
    var dp := Policy(a, DELETION_POLICY, "delete");
    (dp == Some("delete") && mp == Some("default")) || mp == Some("observe-delete")
  }

  predicate IsPaused(a: Annotations) {
    PAUSED in a && a[PAUSED] == Text("true")
  }

  predicate Says(a: Annotations, key: string, text: string) {
    key in a && a[key] == Text(text)
  }

  predicate Unset(a: Annotations, key: string) {
    key !in a || a[key] == Text("")
  }

  /** The resource is deleted with its object exactly if the management policy is
  to observe and delete, or if neither policy says anything but its default. */
  lemma {:induction false} PoliciesDecide(a: Annotations)
    ensures ShouldDelete(a) <==>
      || Says(a, MANAGEMENT_POLICY, "observe-delete")
      || (&& (Unset(a, MANAGEMENT_POLICY) || Says(a, MANAGEMENT_POLICY, "default"))
          && (Unset(a, DELETION_POLICY) || Says(a, DELETION_POLICY, "delete")))
  {
    assert "default" != "observe-delete" by { assert "default"[0] != "observe-delete"[0]; }
  }

  /** Pausing is writing the text true, and nothing else pauses. */
  lemma {:induction false} OnlyTruePauses(a: Annotations, v: Annotation)
    ensures IsPaused(a[PAUSED := v]) <==> v == Text("true")
    ensures !IsPaused(a - {PAUSED})
  {
  }

  // ----- finalizers -------------------------------------------------------

  function Without<T(==)>(f: seq<T>, x: T): seq<T> {
    if f == [] then []
    else Without(f[..|f| - 1], x) + (if f[|f| - 1] == x then [] else [f[|f| - 1]])
  }

  lemma {:induction false} WithoutIsFilter<T>(f: seq<T>, x: T)
    ensures x !in Without(f, x)
    ensures x !in f ==> Without(f, x) == f
    ensures |Without(f, x)| <= |f|
  {
    if f == [] {
    } else {
      WithoutIsFilter(f[..|f| - 1], x);
    }
  }

  lemma {:induction false} WithoutStep<T>(f: seq<T>, x: T, m: nat)
    requires m < |f|
    ensures Without(f[..m + 1], x) == Without(f[..m], x) + (if f[m] == x then [] else [f[m]])
  {
    assert f[..m + 1][..m] == f[..m];
  }

  function AddedFinalizer<T(==)>(f: seq<T>, x: T): seq<T> {
    if x in f then f else f + [x]
  }

  /** The array after the elements behind position `i` of the list moved down by one. */
  function Shifted<T>(a: seq<T>, len: nat, i: nat): (r: seq<T>)
    requires i < len <= |a|
    ensures |r| == |a|
  {
    seq(|a|, j requires 0 <= j < |a| => if i <= j < len - 1 then a[j + 1] else a[j])
  }

  /** The loop of `RemoveFinalizer` from index `i` on: it ranges over the whole
  array while the list in its first `len` places shrinks. None is a slice
  bounds panic. */
  function RemoveFrom<T(==)>(a: seq<T>, len: nat, i: nat, x: T): (r: Option<seq<T>>)
    requires len <= |a| && i <= |a|
    decreases |a| - i
  {
    if i == |a| then Some(a[..len])
    else if a[i] != x then RemoveFrom(a, len, i + 1, x)
    else if i + 1 > len then None
    else RemoveFrom(Shifted(a, len, i), len - 1, i + 1, x)
  }

  /** No element is followed by its like. */
  predicate NoneAdjacent<T(==)>(f: seq<T>, x: T, m: nat) {
    forall i :: m <= i < |f| - 1 ==> f[i] != x || f[i + 1] != x
  }

  /** A list the loop handles: no two adjacent occurrences, and no repeated one in last place. */
  predicate Removable<T(==)>(f: seq<T>, x: T) {
    NoneAdjacent(f, x, 0) && !(f != [] && f[|f| - 1] == x && x in f[..|f| - 1])
  }

  predicate AtMostOnce<T(==)>(f: seq<T>, x: T) {
    forall i, j :: 0 <= i < j < |f| ==> f[i] != x || f[j] != x
  }

  /** What the loop has left to do after consuming `m` elements and removing `k`. */
  predicate RemovableFrom<T(==)>(f: seq<T>, x: T, m: nat, k: nat)
    requires m <= |f|
  {
    && NoneAdjacent(f, x, m)
    && !(m < |f| && f[|f| - 1] == x && (k > 0 || x in f[m..|f| - 1]))
  }

  /** The loop at index `i` has consumed the first `i + k` elements of `f`: the
  array holds what it kept, then what is to come, then `k` stale copies of the
  last element. */
  ghost predicate Consumed<T>(f: seq<T>, a: seq<T>, i: nat, k: nat, x: T) {
    && |a| == |f| && i + k <= |f|
    && a[..i] == Without(f[..i + k], x)
    && (forall j :: i <= j < |f| - k ==> a[j] == f[j + k])
    && (forall j :: |f| - k <= j < |f| ==> a[j] == f[|f| - 1])
    && (i + k > 0 ==> f[i + k - 1] != x)
  }

  /** An occurrence the loop has passed stays in the list. */
  lemma {:induction false} PassedStays<T>(a: seq<T>, len: nat, i: nat, x: T, p: nat)
    requires p < i <= |a| && p < len <= |a| && a[p] == x
    ensures var r := RemoveFrom(a, len, i, x); r.Some? ==> x in r.value
    decreases |a| - i
  {
    if i == |a| {
      assert a[..len][p] == x;
    } else if a[i] != x {
      PassedStays(a, len, i + 1, x, p);
    } else if i + 1 <= len {
      assert Shifted(a, len, i)[p] == x;
      PassedStays(Shifted(a, len, i), len - 1, i + 1, x, p);
    }
  }

  lemma {:induction false} SkipKeepsConsumed<T>(f: seq<T>, a: seq<T>, i: nat, k: nat, x: T)
    requires Consumed(f, a, i, k, x) && i + k < |f| && f[i + k] != x
    ensures a[i] == f[i + k] && Consumed(f, a, i + 1, k, x)
  {
    WithoutStep(f, x, i + k);
    assert a[..i + 1] == a[..i] + [a[i]];
  }

  lemma {:induction false} RemoveKeepsConsumed<T>(f: seq<T>, a: seq<T>, i: nat, k: nat, x: T)
    requires Consumed(f, a, i, k, x) && i + k < |f| - 1 && f[i + k] == x && f[i + k + 1] != x
    ensures a[i] == x && Consumed(f, Shifted(a, |f| - k, i), i + 1, k + 1, x)
  {
    hide Without;
    var n := |f| - k;
    var b := Shifted(a, n, i);
    WithoutStep(f, x, i + k);
    WithoutStep(f, x, i + k + 1);
    assert b[..i + 1] == a[..i] + [a[i + 1]];
  }

  lemma {:induction false} RemovableSkip<T>(f: seq<T>, x: T, m: nat, k: nat)
    requires m < |f| && f[m] != x
    ensures RemovableFrom(f, x, m, k) <==> RemovableFrom(f, x, m + 1, k)
  {
    if m < |f| - 1 {
      assert f[m..|f| - 1] == [f[m]] + f[m + 1..|f| - 1];
    }
  }

  lemma {:induction false} RemovableTake<T>(f: seq<T>, x: T, m: nat, k: nat)
    requires m < |f| - 1 && f[m] == x
    ensures RemovableFrom(f, x, m, k) <==> f[m + 1] != x && RemovableFrom(f, x, m + 2, k + 1)
  {
    assert f[m..|f| - 1][0] == x;
  }

  lemma {:induction false} RemovableLast<T>(f: seq<T>, x: T, k: nat)
    requires f != [] && f[|f| - 1] == x
    ensures RemovableFrom(f, x, |f| - 1, k) <==> k == 0
  {
  }

  lemma {:induction false} AllConsumed<T>(f: seq<T>, a: seq<T>, i: nat, k: nat, x: T)
    requires Consumed(f, a, i, k, x) && i + k == |f|
    ensures RemoveFrom(a, |f| - k, i, x) == Some(Without(f, x))
    ensures RemovableFrom(f, x, |f|, k)
  {
    StaleTail(f, a, i, k, x);
    assert f[..|f|] == f;
  }

  /** The loop ends with exactly the other elements, in order, if and only if
  the list was one it can handle. */
  lemma {:induction false} RemoveFromIsExact<T>(f: seq<T>, a: seq<T>, i: nat, k: nat, x: T)
    requires Consumed(f, a, i, k, x)
    ensures RemoveFrom(a, |f| - k, i, x) == Some(Without(f, x)) <==> RemovableFrom(f, x, i + k, k)
    decreases |f| - i
  {
    hide Without, Shifted, RemovableFrom;
    var n, m := |f|, i + k;
    if m == n {
      AllConsumed(f, a, i, k, x);
    } else if f[m] != x {
      SkipKeepsConsumed(f, a, i, k, x);
      RemovableSkip(f, x, m, k);
      RemoveFromIsExact(f, a, i + 1, k, x);
    } else if m == n - 1 {
      LastIsRemoved(f, a, i, k, x);
      RemovableLast(f, x, k);
    } else {
      RemovableTake(f, x, m, k);
      if f[m + 1] == x {
        AdjacentStays(f, a, i, k, x);
      } else {
        RemoveKeepsConsumed(f, a, i, k, x);
        RemoveFromIsExact(f, Shifted(a, n - k, i), i + 1, k + 1, x);
      }
    }
  }

  lemma {:induction false} AdjacentStays<T>(f: seq<T>, a: seq<T>, i: nat, k: nat, x: T)
    requires Consumed(f, a, i, k, x) && i + k < |f| - 1 && f[i + k] == x && f[i + k + 1] == x
    ensures RemoveFrom(a, |f| - k, i, x) != Some(Without(f, x))
  {
    var b := Shifted(a, |f| - k, i);
    assert a[i] == x && b[i] == x;
    PassedStays(b, |f| - k - 1, i + 1, x, i);
    WithoutIsFilter(f, x);
  }

  /** Behind the list the loop only meets copies of the last element. */
  lemma {:induction false} StaleTail<T>(f: seq<T>, a: seq<T>, i: nat, k: nat, x: T)
    requires |a| == |f| && |f| - k <= i <= |f| && 0 <= k <= |f| && (f != [] ==> f[|f| - 1] != x)
    requires forall j :: |f| - k <= j < |f| ==> a[j] == f[|f| - 1]
    ensures RemoveFrom(a, |f| - k, i, x) == Some(a[..|f| - k])
    decreases |f| - i
  {
    if i < |f| {
      StaleTail(f, a, i + 1, k, x);
    }
  }

  lemma {:induction false} LastIsRemoved<T>(f: seq<T>, a: seq<T>, i: nat, k: nat, x: T)
    requires Consumed(f, a, i, k, x) && i + k == |f| - 1 && f[|f| - 1] == x
    ensures RemoveFrom(a, |f| - k, i, x) == if k == 0 then Some(Without(f, x)) else None
  {
    var n := |f|;
    var b := Shifted(a, n - k, i);
    if k == 0 {
      WithoutStep(f, x, n - 1);
      assert f[..n] == f && f[..i + k] == f[..n - 1];
      assert Without(f, x) == a[..i] + [] == a[..i];
      assert b[..n - 1] == a[..n - 1];
      assert a[i] == x && n - k == n && |b| == n == i + 1;
      assert RemoveFrom(a, n, i, x) == RemoveFrom(b, n - 1, n, x) == Some(b[..n - 1]);
    } else {
      assert b[i + 1] == a[i + 1] == x;
    }
  }

  lemma {:induction false} RemoveFromStep<T>(a: seq<T>, len: nat, i: nat, x: T)
    requires len <= |a| && i < |a|
    ensures RemoveFrom(a, len, i, x) ==
            if a[i] != x then RemoveFrom(a, len, i + 1, x)
            else if i + 1 > len then None
            else RemoveFrom(Shifted(a, len, i), len - 1, i + 1, x)
  {
  }

  lemma {:induction false} RemoveFromEnd<T>(a: seq<T>, len: nat, x: T)
    requires len <= |a|
    ensures RemoveFrom(a, len, |a|, x) == Some(a[..len])
  {
  }

  /** Go's in-place removal: the loop ranges over the array it is shifting.
  `length` is the new list length, None a slice bounds panic. */
  method RemoveFinalizer<T(==)>(a: array<T>, x: T) returns (length: Option<nat>)
    modifies a
    ensures length.Some? ==> length.value <= a.Length
    ensures (if length.Some? then Some(a[..length.value]) else None) == RemoveFrom(old(a[..]), a.Length, 0, x)
    ensures length.Some? && a[..length.value] == Without(old(a[..]), x) <==> Removable(old(a[..]), x)
  {
    hide RemoveFrom, Without, Removable, Shifted, AtMostOnce;
    ghost var f := a[..];
    StartOfRemoval(f, x);
    var len := a.Length;
    var i := 0;
    while i < a.Length
      invariant 0 <= i <= a.Length && 0 <= len <= a.Length
      invariant RemoveFrom(f, |f|, 0, x) == RemoveFrom(a[..], len, i, x)
    {
      RemoveFromStep(a[..], len, i, x);
      if a[i] == x {
        if i + 1 > len {
          return None;
        }
        CutOut(a, len, i);
        len := len - 1;
      }
      i := i + 1;
    }
    RemoveFromEnd(a[..], len, x);
    return Some(len);
  }

  /** `append(f[:i], f[i+1:]...)` within the array. */
  method CutOut<T>(a: array<T>, len: nat, i: nat)
    requires i < len <= a.Length
    modifies a
    ensures a[..] == Shifted(old(a[..]), len, i)
  {
    var j := i;
    while j < len - 1
      invariant i <= j <= len - 1
      invariant forall p :: 0 <= p < a.Length ==> a[p] == if i <= p < j then old(a[p + 1]) else old(a[p])
    {
      a[j] := a[j + 1];
      j := j + 1;
    }
  }

  lemma {:induction false} StartOfRemoval<T>(f: seq<T>, x: T)
    ensures RemoveFrom(f, |f|, 0, x) == Some(Without(f, x)) <==> Removable(f, x)
    ensures AtMostOnce(f, x) ==> Removable(f, x)
  {
    assert f[..0] == [] && f[0..] == f;
    assert f[0..|f|] == f;
    if f != [] { assert f[0..|f| - 1] == f[..|f| - 1]; }
    RemoveFromIsExact(f, f, 0, 0, x);
  }

  /** Two ways a repeated finalizer defeats the loop: one stays, or the slice bounds are exceeded. */
  lemma {:induction false} RepeatedFinalizers<T>(x: T, y: T)
    requires x != y
    ensures RemoveFrom([x, x, y], 3, 0, x) == Some([x, y])
    ensures RemoveFrom([x, x], 2, 0, x) == None
  {
    var a, b := [x, x, y], Shifted([x, x, y], 3, 0);
    assert b == [x, y, y] && b[..2] == [x, y];
    assert RemoveFrom(a, 3, 0, x) == RemoveFrom(b, 2, 1, x);
    assert RemoveFrom(b, 2, 1, x) == RemoveFrom(b, 2, 2, x) == RemoveFrom(b, 2, 3, x) == Some(b[..2]);
    var c := Shifted([x, x], 2, 0);
    assert c == [x, x];
    assert RemoveFrom([x, x], 2, 0, x) == RemoveFrom(c, 1, 1, x);
    assert RemoveFrom(c, 1, 1, x) == None;
  }

  /** Adding puts the element there once, behind the others, and a second time does nothing. */
  lemma {:induction false} AddIsIdempotent<T>(f: seq<T>, x: T)
    ensures
      var g := AddedFinalizer(f, x);
      && x in g && Without(g, x) == Without(f, x) && f <= g
      && AddedFinalizer(g, x) == g && (AtMostOnce(f, x) ==> AtMostOnce(g, x))
  {
    if x !in f {
      assert (f + [x])[..|f|] == f;
      assert Without(f + [x], x) == Without(f, x) + [];
    }
  }

  /** Removing undoes adding: whatever finalizers others have set stay, in order. */
  lemma {:induction false} RemoveUndoesAdd<T>(f: seq<T>, x: T)
    requires x !in f
    ensures RemoveFrom(AddedFinalizer(f, x), |f| + 1, 0, x) == Some(f)
  {
    var g := AddedFinalizer(f, x);
    assert g[..|g| - 1] == f;
    WithoutIsFilter(f, x);
    assert Without(g, x) == f;
    StartOfRemoval(g, x);
  }
}
