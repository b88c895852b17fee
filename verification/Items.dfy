/** Queue items, the order the queue keeps them in, and the ordered index.

The third-party B-tree is modelled as a sequence that is strictly sorted under
`Less`; `Insert` and `Delete` are its `ReplaceOrInsert` and `Delete`. */
module Items {

  datatype Option<+T> = None | Some(value: T)

  /** Nanoseconds on the wall clock. */
  type Time = int

  function Min(a: int, b: int): int { if a < b then a else b }

  /** Any comparable key type. */
  type Key(==, !new)

  datatype Item = Item(key: Key, counter: nat, priority: int, readyAt: Option<Time>)

  predicate Less(a: Item, b: Item) {
    if a.readyAt.None? && b.readyAt.Some? then
      true
    else if b.readyAt.None? && a.readyAt.Some? then
      false
    else if a.readyAt.Some? && b.readyAt.Some? && a.readyAt.value != b.readyAt.value then
      a.readyAt.value < b.readyAt.value
    else if a.priority != b.priority then
      a.priority > b.priority
    else
      a.counter < b.counter
  }

  /** Neither is less: what the tree treats as the same element. */
  predicate Equiv(a: Item, b: Item) {
    !Less(a, b) && !Less(b, a)
  }

  predicate Ready(x: Item, now: Time) {
    x.readyAt.None? || x.readyAt.value <= now
  }

  ghost predicate Sorted(t: seq<Item>) {
    forall i, j :: 0 <= i < j < |t| ==> Less(t[i], t[j])
  }

  /** `Less` is a strict order, total on items with distinct counters. */
  lemma {:induction false} LessIsStrictTotalOrder(a: Item, b: Item, c: Item)
    ensures !Less(a, a)
    ensures Less(a, b) && Less(b, c) ==> Less(a, c)
    ensures a.counter != b.counter ==> Less(a, b) != Less(b, a)
    ensures Equiv(a, b) ==> a.counter == b.counter && a.priority == b.priority && a.readyAt == b.readyAt
  {
  }

  /** What it means to be served first: undelayed before delayed, then the
  earlier ready time, then the higher priority, then the earlier arrival. */
  predicate ComesFirst(x: Item, y: Item) {
    && (y.readyAt.None? ==> x.readyAt.None?)
    && (x.readyAt.Some? && y.readyAt.Some? ==> x.readyAt.value <= y.readyAt.value)
    && (x.readyAt == y.readyAt ==> x.priority >= y.priority)
    && (x.readyAt == y.readyAt && x.priority == y.priority ==> x.counter < y.counter)
  }

  lemma {:induction false} LessMeansFirst(a: Item, b: Item)
    ensures Less(a, b) <==> ComesFirst(a, b)
  {
  }

  /** Readiness is downward closed in the order, so a scan may stop at the first item that is not ready. */
  lemma {:induction false} ReadyIsDownwardClosed(a: Item, b: Item, now: Time)
    requires Less(a, b) && Ready(b, now)
    ensures Ready(a, now)
  {
  }

  function Insert(t: seq<Item>, x: Item): seq<Item> {
    if t == [] then [x]
    else if Less(x, t[0]) then [x] + t
    else if Less(t[0], x) then [t[0]] + Insert(t[1..], x)
    else [x] + t[1..]
  }

  function Delete(t: seq<Item>, x: Item): seq<Item> {
    if t == [] then []
    else if Equiv(t[0], x) then t[1..]
    else [t[0]] + Delete(t[1..], x)
  }

  /** Deletes the given items one after the other. */
  function DeleteAll(t: seq<Item>, xs: seq<Item>): seq<Item> {
    if xs == [] then t else Delete(DeleteAll(t, xs[..|xs| - 1]), xs[|xs| - 1])
  }

  lemma {:induction false} DeleteNone(t: seq<Item>)
    ensures DeleteAll(t, []) == t
  {
  }

  lemma {:induction false} DeleteAllStep(t: seq<Item>, xs: seq<Item>, x: Item)
    ensures DeleteAll(t, xs + [x]) == Delete(DeleteAll(t, xs), x)
  {
    assert (xs + [x])[..|xs|] == xs;
  }

  lemma {:induction false} InsertKeepsSorted(t: seq<Item>, x: Item)
    requires Sorted(t)
    ensures Sorted(Insert(t, x))
    ensures forall y :: y in Insert(t, x) <==> y == x || (y in t && !Equiv(y, x))
  {
    if t == [] {
    } else {
      var rest := t[1..];
      assert t == [t[0]] + rest;
      if Less(t[0], x) {
        InsertKeepsSorted(rest, x);
        var r := Insert(rest, x);
        forall i | 0 <= i < |r| ensures Less(t[0], r[i]) {
          assert r[i] in r;
        }
      }
    }
  }

  lemma {:induction false} DeleteKeepsSorted(t: seq<Item>, x: Item)
    requires Sorted(t)
    ensures Sorted(Delete(t, x))
    ensures forall y :: y in Delete(t, x) <==> y in t && !Equiv(y, x)
  {
    if t == [] {
    } else {
      var rest := t[1..];
      assert t == [t[0]] + rest;
      if !Equiv(t[0], x) {
        DeleteKeepsSorted(rest, x);
        var r := Delete(rest, x);
        forall i | 0 <= i < |r| ensures Less(t[0], r[i]) {
          assert r[i] in rest;
        }
      }
    }
  }

  /** Deleting a stored item cuts it out at its own position. */
  lemma {:induction false} DeleteAt(t: seq<Item>, i: nat)
    requires Sorted(t) && i < |t|
    ensures Delete(t, t[i]) == t[..i] + t[i + 1..]
  {
    if i == 0 {
      assert t[..0] + t[1..] == t[1..];
    } else {
      assert Less(t[0], t[i]);
      DeleteAt(t[1..], i - 1);
      assert t[1..][i - 1] == t[i];
      assert [t[0]] + (t[1..][..i - 1] + t[1..][i..]) == t[..i] + t[i + 1..];
    }
  }

  /** A sorted sequence is determined by its elements: the tree has one possible content per item table. */
  lemma {:induction false} SortedIsUnique(s: seq<Item>, t: seq<Item>)
    requires Sorted(s) && Sorted(t)
    requires forall x :: x in s <==> x in t
    ensures s == t
  {
    assert s != [] ==> s[0] in t;
    assert t != [] ==> t[0] in s;
    if s == [] {
    } else {
      assert s[0] == t[0];
      forall x ensures x in s[1..] <==> x in t[1..] {
        if x in s[1..] { assert x in s; assert x != s[0]; }
        if x in t[1..] { assert x in t; assert x != t[0]; }
      }
      SortedIsUnique(s[1..], t[1..]);
    }
  }
}
