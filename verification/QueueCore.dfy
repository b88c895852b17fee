/** The state the queue guards with its locks, the operations of its critical
sections, and the agreement between table, tree and metrics they all keep. */
module QueueCore {
  import opened Items
  import opened Metrics

  datatype Core = Core(
    items: map<Key, Item>,
    tree: seq<Item>,
    counter: nat,
    becameReady: set<Key>,
    locked: set<Key>,
    lockedPriority: map<Key, int>,
    metrics: Gauges)

  const EMPTY_GAUGES := Gauges(true, map[], map[], map[], 0, 0, 0, 0)

  function EmptyCore(perPriority: bool): Core {
    Core(map[], [], 0, {}, {}, map[], EMPTY_GAUGES.(perPriority := perPriority))
  }

  // ----- operations -------------------------------------------------------

  /** The delay an add asks for: the limiter's, when rate limiting is on and
  no shorter explicit delay was given. */
  function Delay(after: int, rateLimited: bool, limiter: int): int {
    if rateLimited && (after == 0 || limiter < after) then limiter else after
  }

  function ReadyTime(delay: int, now: Time): Option<Time> {
    if delay > 0 then Some(now + delay) else None
  }

  /** Whether the new ready time replaces the stored one. */
  predicate Sooner(offered: Option<Time>, stored: Option<Time>) {
    stored.Some? && (offered.None? || offered.value < stored.value)
  }

  function AddNew(c: Core, key: Key, priority: int, readyAt: Option<Time>, now: Time): Core {
    var x := Item(key, c.counter, priority, readyAt);
    c.(items := c.items[key := x],
       tree := Insert(c.tree, x),
       counter := c.counter + 1,
       metrics := if readyAt.None? then Added(c.metrics, key, priority, now) else c.metrics)
  }

  function Merged(x: Item, priority: int, readyAt: Option<Time>): Item {
    x.(priority := if priority > x.priority then priority else x.priority,
       readyAt := if Sooner(readyAt, x.readyAt) then readyAt else x.readyAt)
  }

  function AddAgain(c: Core, key: Key, priority: int, readyAt: Option<Time>, now: Time): Core
    requires key in c.items
  {
    var x := c.items[key];
    var y := Merged(x, priority, readyAt);
    var g1 := if priority > x.priority && (x.readyAt.None? || key in c.becameReady)
              then Moved(c.metrics, x.priority, priority) else c.metrics;
    var g2 := if Sooner(readyAt, x.readyAt) && readyAt.None? && key !in c.becameReady
              then Added(g1, key, y.priority, now) else g1;
    c.(items := c.items[key := y], tree := Insert(Delete(c.tree, x), y), metrics := g2)
  }

  /** One round of the loop in `AddWithOpts`. */
  function AddKey(c: Core, key: Key, priority: int, readyAt: Option<Time>, now: Time): Core {
    var c1 := if readyAt.Some? then c.(metrics := Retried(c.metrics)) else c;
    if key !in c.items then AddNew(c1, key, priority, readyAt, now) else AddAgain(c1, key, priority, readyAt, now)
  }

  /** First sight of a delayed item that has become ready: it enters the depth gauge once. */
  function MarkReady(c: Core, x: Item, now: Time): Core {
    if x.readyAt.Some? && x.key !in c.becameReady then
      c.(metrics := Added(c.metrics, x.key, x.priority, now), becameReady := c.becameReady + {x.key})
    else c
  }

  /** Removes an item from the queue and locks its key for the getter that receives it. */
  function Take(c: Core, x: Item, now: Time): Core {
    c.(metrics := Got(c.metrics, x.key, x.priority, now),
       locked := c.locked + {x.key},
       lockedPriority := c.lockedPriority[x.key := x.priority],
       items := c.items - {x.key},
       tree := Delete(c.tree, x),
       becameReady := c.becameReady - {x.key})
  }

  function Release(c: Core, key: Key): Core {
    c.(locked := c.locked - {key},
       lockedPriority := c.lockedPriority - {key},
       metrics := Finished(c.metrics, key))
  }

  // ----- agreement --------------------------------------------------------

  /** The gauge that counts the queued item, if any: undelayed items and
  delayed ones already seen ready are counted. */
  ghost function Gauge(c: Core, k: Key): Option<int> {
    if k in c.items && (c.items[k].readyAt.None? || k in c.becameReady)
    then Some(Label(c.metrics, c.items[k].priority)) else None
  }

  ghost function CountedAt(c: Core, tag: int): set<Key> {
    set k | k in c.items && Gauge(c, k) == Some(tag)
  }

  ghost function Counted(c: Core): set<Key> {
    set k | k in c.items && Gauge(c, k).Some?
  }

  /** Table and tree hold the same items. */
  ghost predicate Indexed(c: Core) {
    && Sorted(c.tree)
    && (forall x :: x in c.tree ==> x.key in c.items && c.items[x.key] == x)
    && (forall k :: k in c.items ==> c.items[k].key == k && c.items[k] in c.tree && c.items[k].counter < c.counter)
    && (forall k, l :: k in c.items && l in c.items && k != l ==> c.items[k].counter != c.items[l].counter)
    && c.becameReady <= c.items.Keys
    && c.locked == c.lockedPriority.Keys
  }

  ghost predicate DepthAgrees(c: Core) {
    forall tag :: Depth(c.metrics, tag) == |CountedAt(c, tag)|
  }

  ghost predicate TimesAgree(c: Core) {
    && c.metrics.addTimes.Keys == Counted(c)
    && c.metrics.startTimes.Keys == c.locked
    && c.metrics.adds == c.metrics.latencies + |c.metrics.addTimes.Keys|
    && c.metrics.latencies == c.metrics.works + |c.metrics.startTimes.Keys|
  }

  /** Metrics and queue tell the same story. */
  ghost predicate Measured(c: Core) {
    DepthAgrees(c) && TimesAgree(c)
  }

  ghost predicate Agree(c: Core) {
    Indexed(c) && Measured(c)
  }

  lemma {:induction false} EmptyAgrees(perPriority: bool)
    ensures Agree(EmptyCore(perPriority))
  {
  }

  /** Only `key`'s gauge changed, and the depths moved with it. */
  ghost predicate DepthMoves(c: Core, d: Core, key: Key) {
    && (forall k :: k != key ==> Gauge(c, k) == Gauge(d, k))
    && (forall tag :: Depth(d.metrics, tag) == Depth(c.metrics, tag)
                      - (if Gauge(c, key) == Some(tag) then 1 else 0)
                      + (if Gauge(d, key) == Some(tag) then 1 else 0))
  }

  lemma {:induction false} DepthFollowsAt(c: Core, d: Core, key: Key, tag: int)
    requires DepthAgrees(c) && DepthMoves(c, d, key)
    ensures Depth(d.metrics, tag) == |CountedAt(d, tag)|
  {
    hide Depth;
    var before, after := CountedAt(c, tag), CountedAt(d, tag);
    assert before - {key} == after - {key};
    assert key in before ==> |before - {key}| == |before| - 1;
    assert key !in before ==> before - {key} == before;
    assert key in after ==> |after - {key}| == |after| - 1;
    assert key !in after ==> after - {key} == after;
  }

  lemma {:induction false} DepthFollows(c: Core, d: Core, key: Key)
    requires DepthAgrees(c) && DepthMoves(c, d, key)
    ensures DepthAgrees(d)
  {
    hide DepthMoves, CountedAt, Gauge, Depth;
    forall tag ensures Depth(d.metrics, tag) == |CountedAt(d, tag)| {
      DepthFollowsAt(c, d, key, tag);
    }
  }

  /** At most `key` entered the count, and the time maps moved with it. */
  ghost predicate TimesMove(c: Core, d: Core, key: Key) {
    && (forall k :: k != key ==> Gauge(c, k).Some? == Gauge(d, k).Some?)
    && (Gauge(c, key).Some? ==> Gauge(d, key).Some?)
    && d.locked == c.locked
    && var g, h := c.metrics, d.metrics;
       && h.startTimes == g.startTimes && h.latencies == g.latencies && h.works == g.works
       && if Gauge(c, key).None? && Gauge(d, key).Some?
          then h.addTimes.Keys == g.addTimes.Keys + {key} && h.adds == g.adds + 1
          else h.addTimes == g.addTimes && h.adds == g.adds
  }

  lemma {:induction false} CountedMoves(c: Core, d: Core, key: Key)
    requires TimesMove(c, d, key)
    ensures key in Counted(c) <==> Gauge(c, key).Some?
    ensures Counted(d) == if Gauge(d, key).Some? then Counted(c) + {key} else Counted(c)
  {
  }

  lemma {:induction false} TimesFollow(c: Core, d: Core, key: Key)
    requires TimesAgree(c) && TimesMove(c, d, key)
    ensures TimesAgree(d)
  {
    hide Gauge, Counted;
    CountedMoves(c, d, key);
    var was := Counted(c);
    assert key in was ==> was + {key} == was;
    assert key !in was ==> |was + {key}| == |was| + 1;
  }

  /** No stored item is equivalent to another: equal counters mean equal keys. */
  lemma {:induction false} EquivIsSame(c: Core, x: Item, y: Item)
    requires Indexed(c) && x in c.tree && y in c.tree && Equiv(x, y)
    ensures x == y
  {
  }

  lemma {:induction false} AddNewKeepsIndex(c: Core, key: Key, priority: int, readyAt: Option<Time>, now: Time)
    requires Indexed(c) && key !in c.items
    ensures Indexed(AddNew(c, key, priority, readyAt, now))
  {
    InsertKeepsSorted(c.tree, Item(key, c.counter, priority, readyAt));
  }

  lemma {:induction false} AddAgainKeepsIndex(c: Core, key: Key, priority: int, readyAt: Option<Time>, now: Time)
    requires Indexed(c) && key in c.items
    ensures Indexed(AddAgain(c, key, priority, readyAt, now))
  {
    var x := c.items[key];
    var y := Merged(x, priority, readyAt);
    DeleteKeepsSorted(c.tree, x);
    InsertKeepsSorted(Delete(c.tree, x), y);
  }

  lemma {:induction false} AddNewMoves(c: Core, key: Key, priority: int, readyAt: Option<Time>, now: Time)
    requires key !in c.items && key !in c.becameReady && key !in c.metrics.addTimes
    ensures DepthMoves(c, AddNew(c, key, priority, readyAt, now), key)
    ensures TimesMove(c, AddNew(c, key, priority, readyAt, now), key)
  {
    hide Shift, Insert;
  }

  lemma {:induction false} AddNewKeepsMeasures(c: Core, key: Key, priority: int, readyAt: Option<Time>, now: Time)
    requires Measured(c) && key !in c.items && key !in c.becameReady
    ensures Measured(AddNew(c, key, priority, readyAt, now))
  {
    hide AddNew, DepthMoves, TimesMove, DepthAgrees, Gauge;
    var d := AddNew(c, key, priority, readyAt, now);
    AddNewMoves(c, key, priority, readyAt, now);
    DepthFollows(c, d, key);
    TimesFollow(c, d, key);
  }

  lemma {:induction false} AddAgainMoves(c: Core, key: Key, priority: int, readyAt: Option<Time>, now: Time)
    requires key in c.items && (key in c.metrics.addTimes <==> Gauge(c, key).Some?)
    ensures DepthMoves(c, AddAgain(c, key, priority, readyAt, now), key)
    ensures TimesMove(c, AddAgain(c, key, priority, readyAt, now), key)
  {
    hide Shift, Insert, Delete;
  }

  lemma {:induction false} AddAgainKeepsMeasures(c: Core, key: Key, priority: int, readyAt: Option<Time>, now: Time)
    requires Measured(c) && key in c.items
    ensures Measured(AddAgain(c, key, priority, readyAt, now))
  {
    hide AddAgain, DepthMoves, TimesMove, DepthAgrees;
    var d := AddAgain(c, key, priority, readyAt, now);
    AddAgainMoves(c, key, priority, readyAt, now);
    DepthFollows(c, d, key);
    TimesFollow(c, d, key);
  }

  /** Adding a key, new or queued, keeps table, tree and metrics in agreement. */
  lemma {:induction false} AddKeepsAgreement(c: Core, key: Key, priority: int, readyAt: Option<Time>, now: Time)
    requires Agree(c)
    ensures Agree(AddKey(c, key, priority, readyAt, now))
  {
    var c1 := if readyAt.Some? then c.(metrics := Retried(c.metrics)) else c;
    RetryKeepsAgreement(c);
    if key !in c.items {
      AddNewKeepsIndex(c1, key, priority, readyAt, now);
      AddNewKeepsMeasures(c1, key, priority, readyAt, now);
    } else {
      AddAgainKeepsIndex(c1, key, priority, readyAt, now);
      AddAgainKeepsMeasures(c1, key, priority, readyAt, now);
    }
  }

  lemma {:induction false} RetryKeepsAgreement(c: Core)
    requires Agree(c)
    ensures Agree(c.(metrics := Retried(c.metrics)))
  {
    hide Indexed, CountedAt, Counted;
    RetryCountsSame(c);
    SameIndex(c, c.(metrics := Retried(c.metrics)));
  }

  lemma {:induction false} RetryCountsSame(c: Core)
    ensures
      var d := c.(metrics := Retried(c.metrics));
      Counted(d) == Counted(c) && forall tag :: CountedAt(d, tag) == CountedAt(c, tag)
  {
  }

  lemma {:induction false} SameIndex(c: Core, d: Core)
    requires Indexed(c) && d == c.(metrics := d.metrics)
    ensures Indexed(d)
  {
  }

  lemma {:induction false} MarkReadyMoves(c: Core, x: Item, now: Time)
    requires x.key in c.items && c.items[x.key] == x && (x.key in c.metrics.addTimes <==> Gauge(c, x.key).Some?)
    ensures DepthMoves(c, MarkReady(c, x, now), x.key)
    ensures TimesMove(c, MarkReady(c, x, now), x.key)
  {
    hide Shift;
  }

  lemma {:induction false} MarkReadyKeepsMeasures(c: Core, x: Item, now: Time)
    requires Measured(c) && x.key in c.items && c.items[x.key] == x
    ensures Measured(MarkReady(c, x, now))
  {
    hide MarkReady, DepthMoves, TimesMove, DepthAgrees;
    var d := MarkReady(c, x, now);
    MarkReadyMoves(c, x, now);
    DepthFollows(c, d, x.key);
    TimesFollow(c, d, x.key);
  }

  lemma {:induction false} MarkReadyKeepsAgreement(c: Core, x: Item, now: Time)
    requires Agree(c) && x in c.tree
    ensures Agree(MarkReady(c, x, now))
  {
    MarkReadyKeepsMeasures(c, x, now);
  }

  lemma {:induction false} TakeKeepsIndex(c: Core, x: Item, now: Time)
    requires Indexed(c) && x in c.tree
    ensures Indexed(Take(c, x, now))
  {
    var d := Take(c, x, now);
    DeleteKeepsSorted(c.tree, x);
    forall y | y in d.tree ensures y.key in d.items && d.items[y.key] == y {
      assert y in c.tree && !Equiv(y, x);
    }
  }

  lemma {:induction false} TakeMoves(c: Core, x: Item, now: Time)
    requires x.key in c.items && c.items[x.key] == x && (x.readyAt.Some? ==> x.key in c.becameReady)
    ensures DepthMoves(c, Take(c, x, now), x.key)
  {
    hide Shift, Delete;
  }

  lemma {:induction false} TakeKeepsTimes(c: Core, x: Item, now: Time)
    requires TimesAgree(c) && x.key in c.items && c.items[x.key] == x && x.key !in c.locked
    requires x.readyAt.Some? ==> x.key in c.becameReady
    ensures TimesAgree(Take(c, x, now))
  {
    hide Counted, Take;
    var d := Take(c, x, now);
    TakeMovesKeys(c, x, now);
    assert |d.metrics.addTimes.Keys| == |c.metrics.addTimes.Keys| - 1;
    assert |d.metrics.startTimes.Keys| == |c.metrics.startTimes.Keys| + 1;
  }

  lemma {:induction false} TakeMovesKeys(c: Core, x: Item, now: Time)
    requires x.key in c.items && c.items[x.key] == x && (x.readyAt.Some? ==> x.key in c.becameReady)
    ensures
      var d := Take(c, x, now);
      && Counted(d) == Counted(c) - {x.key} && x.key in Counted(c)
      && d.locked == c.locked + {x.key}
      && d.metrics.addTimes.Keys == c.metrics.addTimes.Keys - {x.key}
      && d.metrics.startTimes.Keys == c.metrics.startTimes.Keys + {x.key}
      && d.metrics.adds == c.metrics.adds && d.metrics.works == c.metrics.works
      && (x.key in c.metrics.addTimes ==> d.metrics.latencies == c.metrics.latencies + 1)
  {
    hide Shift, Delete;
  }

  lemma {:induction false} TakeKeepsMeasures(c: Core, x: Item, now: Time)
    requires Measured(c) && x.key in c.items && c.items[x.key] == x && x.key !in c.locked
    requires x.readyAt.Some? ==> x.key in c.becameReady
    ensures Measured(Take(c, x, now))
  {
    hide Take, DepthMoves, DepthAgrees, TimesAgree;
    TakeMoves(c, x, now);
    DepthFollows(c, Take(c, x, now), x.key);
    TakeKeepsTimes(c, x, now);
  }

  lemma {:induction false} TakeKeepsAgreement(c: Core, x: Item, now: Time)
    requires Agree(c) && x in c.tree && x.key !in c.locked
    requires x.readyAt.Some? ==> x.key in c.becameReady
    ensures Agree(Take(c, x, now))
  {
    TakeKeepsIndex(c, x, now);
    TakeKeepsMeasures(c, x, now);
  }

  lemma {:induction false} ReleaseKeepsAgreement(c: Core, key: Key)
    requires Agree(c)
    ensures Agree(Release(c, key))
  {
    var d := Release(c, key);
    assert forall k :: Gauge(c, k) == Gauge(d, k);
    assert forall tag :: CountedAt(c, tag) == CountedAt(d, tag);
    assert Counted(c) == Counted(d);
    assert d.metrics.startTimes.Keys == c.metrics.startTimes.Keys - {key};
  }

  /** The tree is the one sorted sequence of the table's items. */
  lemma {:induction false} TreeIsDetermined(c: Core, d: Core)
    requires Indexed(c) && Indexed(d) && c.items == d.items
    ensures c.tree == d.tree
  {
    SortedIsUnique(c.tree, d.tree);
  }

  // ----- what the metrics record ------------------------------------------

  /** Times come from the clock at the moment they are recorded, and are not touched afterwards. */
  ghost predicate Stamped(before: map<Key, Time>, after: map<Key, Time>, now: Time) {
    forall k :: k in after ==> after[k] == if k in before then before[k] else now
  }

  lemma {:induction false} AddStampsNow(c: Core, key: Key, priority: int, readyAt: Option<Time>, now: Time)
    ensures
      var g, h := c.metrics, AddKey(c, key, priority, readyAt, now).metrics;
      Stamped(g.addTimes, h.addTimes, now) && h.startTimes == g.startTimes
  {
    hide AddNew, AddAgain;
    var c1 := if readyAt.Some? then c.(metrics := Retried(c.metrics)) else c;
    AddNewStampsNow(c1, key, priority, readyAt, now);
    if key in c.items {
      AddAgainStampsNow(c1, key, priority, readyAt, now);
    }
  }

  lemma {:induction false} AddNewStampsNow(c: Core, key: Key, priority: int, readyAt: Option<Time>, now: Time)
    ensures
      var g, h := c.metrics, AddNew(c, key, priority, readyAt, now).metrics;
      Stamped(g.addTimes, h.addTimes, now) && h.startTimes == g.startTimes
  {
    hide Insert;
  }

  lemma {:induction false} AddAgainStampsNow(c: Core, key: Key, priority: int, readyAt: Option<Time>, now: Time)
    requires key in c.items
    ensures
      var g, h := c.metrics, AddAgain(c, key, priority, readyAt, now).metrics;
      Stamped(g.addTimes, h.addTimes, now) && h.startTimes == g.startTimes
  {
    hide Insert, Delete, Sooner;
  }

  lemma {:induction false} VisitStampsNow(c: Core, x: Item, now: Time)
    ensures
      var g, h, i := c.metrics, MarkReady(c, x, now).metrics, Take(c, x, now).metrics;
      && Stamped(g.addTimes, h.addTimes, now) && h.startTimes == g.startTimes
      && Stamped(g.addTimes, i.addTimes, now) && x.key in i.startTimes && i.startTimes[x.key] == now
      && forall k :: k in g.startTimes && k != x.key ==> k in i.startTimes && i.startTimes[k] == g.startTimes[k]
  {
    hide Delete;
  }
}
