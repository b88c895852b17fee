/** The queue object: its critical sections as imperative code, each proved to
do what the specification functions of `QueueCore` and `QueueRuns` say. */
module PriorityQueue {
  import opened Items
  import opened Metrics
  import opened QueueCore
  import opened QueueRuns

  /** The requests an `AddWithOpts` call makes; `limiter` and `clock` are what
  the rate limiter and the clock answer for each key in turn. */
  function Requests(after: int, rateLimited: bool, priority: int, keys: seq<Key>, limiter: seq<int>, clock: seq<Time>): (r: seq<Request>)
    requires |keys| == |limiter| == |clock|
    ensures |r| == |keys|
  {
    seq(|keys|, i requires 0 <= i < |keys| =>
      Request(keys[i], priority, ReadyTime(Delay(after, rateLimited, limiter[i]), clock[i]), clock[i]))
  }

  /** The i-th key of a call is asked for with the call's priority and, after a
  wait, for the time at which its turn came: the wait is the given delay unless
  the call is rate limited; then it is the limiter's answer where no delay was
  given, and otherwise the shorter of the two. */
  lemma {:induction false} RequestsMean(after: int, rateLimited: bool, priority: int, keys: seq<Key>, limiter: seq<int>, clock: seq<Time>, i: nat)
    returns (wait: int)
    requires |keys| == |limiter| == |clock| && i < |keys|
    ensures
      var r := Requests(after, rateLimited, priority, keys, limiter, clock)[i];
      && r.key == keys[i] && r.priority == priority && r.now == clock[i]
      && (wait > 0 ==> r.readyAt == Some(clock[i] + wait)) && (wait <= 0 ==> r.readyAt == None)
    ensures !rateLimited ==> wait == after
    ensures rateLimited && after == 0 ==> wait == limiter[i]
    ensures rateLimited && after != 0 ==> (wait == after || wait == limiter[i]) && wait <= after && wait <= limiter[i]
  {
    wait := Delay(after, rateLimited, limiter[i]);
  }

  lemma {:induction false} RequestsStart(c: Core, reqs: seq<Request>)
    ensures AddAll(c, reqs[..0]) == c
  {
  }

  lemma {:induction false} RequestsStep(c: Core, after: int, rateLimited: bool, priority: int, keys: seq<Key>, limiter: seq<int>, clock: seq<Time>, i: nat)
    requires |keys| == |limiter| == |clock| && i < |keys|
    ensures
      var reqs := Requests(after, rateLimited, priority, keys, limiter, clock);
      AddAll(c, reqs[..i + 1]) ==
        AddKey(AddAll(c, reqs[..i]), keys[i], priority, ReadyTime(Delay(after, rateLimited, limiter[i]), clock[i]), clock[i])
  {
    hide AddKey;
    var reqs := Requests(after, rateLimited, priority, keys, limiter, clock);
    assert reqs[..i + 1][..i] == reqs[..i];
  }

  /** What a visit does to the rest of the state does not depend on the tree. */
  lemma {:induction false} VisitIgnoresTree(c: Core, t: seq<Item>, x: Item, now: Time)
    ensures MarkReady(c.(tree := t), x, now) == MarkReady(c, x, now).(tree := t)
    ensures Take(c.(tree := t), x, now) == Take(c, x, now).(tree := Delete(t, x))
    ensures MarkReady(c, x, now).tree == c.tree && MarkReady(c, x, now).locked == c.locked
  {
  }

  /** A scan seen after `n` items were visited and `handed` handed out. */
  ghost function Prepend(handed: seq<Item>, n: nat, s: Scan): Scan {
    s.(handed := handed + s.handed, visited := n + s.visited)
  }

  lemma {:induction false} PrependTwice(h: seq<Item>, i: nat, g: seq<Item>, j: nat, s: Scan)
    ensures Prepend(h, i, Prepend(g, j, s)) == Prepend(h + g, i + j, s)
  {
    assert h + (g + s.handed) == (h + g) + s.handed;
  }

  /** One visit of a scan that has reached position `i`. */
  lemma {:induction false} ScanStep(c: Core, w: nat, t: seq<Item>, env: seq<Reading>, i: nat)
    requires i < |t| <= |env|
    ensures
      var x, e := t[i], env[i];
      var c1, n := MarkReady(c, x, e.now), w + e.arrived;
      ScanFrom(c, w, t[i..], env[i..]) ==
        if !Ready(x, e.now) then Scan(c, n, [], Some(x.readyAt.value - e.now), 0)
        else if n == 0 || x.key in c.locked then Prepend([], 1, ScanFrom(c1, n, t[i + 1..], env[i + 1..]))
        else if e.open then Prepend([x], 1, ScanFrom(Take(c1, x, e.now), n - 1, t[i + 1..], env[i + 1..]))
        else Prepend([], 1, Scan(Take(c1, x, e.now), n - 1, [], None, 0))
  {
    hide MarkReady, Take, Ready;
    VisitLocks(c, t[i], env[i].now);
    assert t[i..][1..] == t[i + 1..] && env[i..][1..] == env[i + 1..];
  }

  lemma {:induction false} ScanEnd(c: Core, w: nat, t: seq<Item>, env: seq<Reading>)
    requires t == []
    ensures ScanFrom(c, w, t, env) == Scan(c, w, [], None, 0)
  {
  }

  lemma {:induction false} CountReadyStep(t: seq<Item>, clock: seq<Time>, n: nat)
    requires n < |t| <= |clock| && Ready(t[n], clock[n])
    ensures CountReady(t[n..], clock[n..]) == 1 + CountReady(t[n + 1..], clock[n + 1..])
  {
    assert t[n..][1..] == t[n + 1..] && clock[n..][1..] == clock[n + 1..];
  }

  lemma {:induction false} WholeScanAgrees(c: Core, waiters: nat, env: seq<Reading>)
    requires Agree(c) && |c.tree| <= |env|
    ensures Agree(ScanFrom(c, waiters, c.tree, env).core)
  {
    hide Measured;
    TreeKeysDistinct(c);
    ScanKeepsAgreement(c, waiters, c.tree, env);
  }

  lemma {:induction false} AgreedIsSorted(c: Core)
    requires Agree(c)
    ensures Sorted(c.tree)
  {
  }

  lemma {:induction false} CountReadyStop(t: seq<Item>, clock: seq<Time>)
    requires |t| <= |clock| && (t == [] || !Ready(t[0], clock[0]))
    ensures CountReady(t, clock) == 0
  {
  }

  class Queue {
    var items: map<Key, Item>
    var tree: seq<Item>
    var addedCounter: nat
    var becameReady: set<Key>
    var locked: set<Key>
    var lockedPriority: map<Key, int>
    const metrics: QueueMetrics

    var waiters: nat
    var itemOrWaiterAdded: bool
    var shutdown: bool
    var closes: nat

    function Value(): Core
      reads this, metrics
    {
      Core(items, tree, addedCounter, becameReady, locked, lockedPriority, metrics.Value())
    }

    ghost predicate Valid()
      reads this, metrics
    {
      Agree(Value()) && closes == if shutdown then 1 else 0
    }

    constructor (perPriority: bool)
      ensures Valid() && Value() == EmptyCore(perPriority)
      ensures waiters == 0 && !itemOrWaiterAdded && !shutdown
      ensures fresh(metrics)
    {
      items, tree, addedCounter := map[], [], 0;
      becameReady, locked, lockedPriority := {}, {}, map[];
      metrics := new QueueMetrics(perPriority);
      waiters, itemOrWaiterAdded, shutdown, closes := 0, false, false, 0;
      new;
      EmptyAgrees(perPriority);
    }

    method AddOne(key: Key, priority: int, readyAt: Option<Time>, now: Time)
      requires Agree(Value())
      modifies this`items, this`tree, this`addedCounter, metrics
      ensures Value() == AddKey(old(Value()), key, priority, readyAt, now)
    {
      hide Agree, AddNew, AddAgain;
      if readyAt.Some? {
        metrics.Retry();
      }
      if key !in items {
        AddFresh(key, priority, readyAt, now);
      } else {
        AddQueued(key, priority, readyAt, now);
      }
    }

    method AddFresh(key: Key, priority: int, readyAt: Option<Time>, now: Time)
      modifies this`items, this`tree, this`addedCounter, metrics
      ensures Value() == AddNew(old(Value()), key, priority, readyAt, now)
    {
      hide Added, Insert;
      var x := Item(key, addedCounter, priority, readyAt);
      items := items[key := x];
      tree := Insert(tree, x);
      if x.readyAt.None? {
        metrics.Add(key, x.priority, now);
      }
      addedCounter := addedCounter + 1;
    }

    method AddQueued(key: Key, priority: int, readyAt: Option<Time>, now: Time)
      requires key in items
      modifies this`items, this`tree, metrics
      ensures Value() == AddAgain(old(Value()), key, priority, readyAt, now)
    {
      hide Added, Moved, Insert, Delete;
      var x := items[key];
      tree := Delete(tree, x);
      if priority > x.priority {
        if x.readyAt.None? || key in becameReady {
          metrics.UpdateDepth(x.priority, priority);
        }
        x := x.(priority := priority);
      }
      if x.readyAt.Some? && (readyAt.None? || readyAt.value < x.readyAt.value) {
        if readyAt.None? && key !in becameReady {
          metrics.Add(key, x.priority, now);
        }
        x := x.(readyAt := readyAt);
      }
      items := items[key := x];
      tree := Insert(tree, x);
    }

    method AddWithOpts(after: int, rateLimited: bool, priority: int, keys: seq<Key>, limiter: seq<int>, clock: seq<Time>)
      requires Valid() && |keys| == |limiter| == |clock|
      modifies this`items, this`tree, this`addedCounter, this`itemOrWaiterAdded, metrics
      ensures Valid()
      ensures old(shutdown) ==> Value() == old(Value()) && itemOrWaiterAdded == old(itemOrWaiterAdded)
      ensures !old(shutdown) ==>
                && Value() == AddAll(old(Value()), Requests(after, rateLimited, priority, keys, limiter, clock))
                && itemOrWaiterAdded == (old(itemOrWaiterAdded) || keys != [])
    {
      hide Agree, AddKey, AddAll, Requests;
      if shutdown {
        return;
      }
      ghost var reqs := Requests(after, rateLimited, priority, keys, limiter, clock);
      RequestsStart(Value(), reqs);
      for i := 0 to |keys|
        invariant Agree(Value())
        invariant Value() == AddAll(old(Value()), reqs[..i])
        invariant itemOrWaiterAdded == old(itemOrWaiterAdded)
      {
        var wait := after;
        if rateLimited {
          var limited := limiter[i];
          if wait == 0 || limited < wait {
            wait := limited;
          }
        }
        var readyAt := None;
        if wait > 0 {
          readyAt := Some(clock[i] + wait);
        }
        ghost var c := Value();
        AddOne(keys[i], priority, readyAt, clock[i]);
        RequestsStep(old(Value()), after, rateLimited, priority, keys, limiter, clock, i);
        AddKeepsAgreement(c, keys[i], priority, readyAt, clock[i]);
      }
      assert reqs[..|keys|] == reqs;
      if keys != [] {
        itemOrWaiterAdded := true;
      }
    }

    method MarkSeen(x: Item, now: Time)
      modifies this`becameReady, metrics
      ensures Value() == MarkReady(old(Value()), x, now)
    {
      if x.readyAt.Some? && x.key !in becameReady {
        metrics.Add(x.key, x.priority, now);
        becameReady := becameReady + {x.key};
      }
    }

    /** Everything `Take` does except the removal from the tree, which must wait until the walk is over. */
    method LockOut(x: Item, now: Time)
      modifies this`items, this`becameReady, this`locked, this`lockedPriority, metrics
      ensures Value() == Take(old(Value()), x, now).(tree := old(tree))
    {
      metrics.Get(x.key, x.priority, now);
      locked := locked + {x.key};
      lockedPriority := lockedPriority[x.key := x.priority];
      items := items - {x.key};
      becameReady := becameReady - {x.key};
    }

    /** One ready item: count it, and take it if a getter waits and its key is free. */
    method Visit(x: Item, e: Reading) returns (taken: bool)
      modifies this`items, this`becameReady, this`locked, this`lockedPriority, this`waiters, metrics
      ensures
        var n, c1 := old(waiters) + e.arrived, MarkReady(old(Value()), x, e.now);
        && taken == (n != 0 && x.key !in old(locked))
        && waiters == (if taken then n - 1 else n)
        && Value() == if taken then Take(c1, x, e.now).(tree := old(tree)) else c1
    {
      MarkSeen(x, e.now);
      waiters := waiters + e.arrived;
      taken := false;
      if waiters == 0 {
        return;
      }
      if x.key in locked {
        return;
      }
      LockOut(x, e.now);
      waiters := waiters - 1;
      taken := true;
    }

    /** The walk over the tree, which must not change the tree: what is taken is noted in `toDelete`. */
    method Walk(env: seq<Reading>) returns (timer: Option<int>, handed: seq<Item>, toDelete: seq<Item>)
      requires |tree| <= |env|
      modifies this`items, this`becameReady, this`locked, this`lockedPriority, this`waiters, metrics
      ensures
        var s := ScanFrom(old(Value()), old(waiters), old(tree), env);
        && s.core == Value().(tree := DeleteAll(tree, toDelete))
        && waiters == s.waiters && timer == s.timer && handed == s.handed
    {
      hide MarkReady, Take, ScanFrom, DeleteAll, Delete;
      timer, handed, toDelete := None, [], [];
      DeleteNone(tree);
      ghost var all := ScanFrom(Value(), waiters, tree, env);
      ghost var simple := Value();
      assert tree[0..] == tree && env[0..] == env;
      var i, more := 0, true;
      while i < |tree| && more
        invariant 0 <= i <= |tree|
        invariant simple == Value().(tree := DeleteAll(tree, toDelete))
        invariant more ==> timer == None
        invariant all == Prepend(handed, i, if more then ScanFrom(simple, waiters, tree[i..], env[i..])
                                            else Scan(simple, waiters, [], timer, 0))
        decreases |tree| - i, more
      {
        var x, e := tree[i], env[i];
        ScanStep(simple, waiters, tree, env, i);
        if !Ready(x, e.now) {
          waiters := waiters + e.arrived;
          timer := Some(x.readyAt.value - e.now);
          more := false;
        } else {
          ghost var c := Value();
          var taken := Visit(x, e);
          VisitIgnoresTree(c, DeleteAll(tree, toDelete), x, e.now);
          VisitIgnoresTree(MarkReady(c, x, e.now), DeleteAll(tree, toDelete), x, e.now);
          simple := MarkReady(simple, x, e.now);
          var given: seq<Item> := [];
          if taken {
            simple := Take(simple, x, e.now);
            DeleteAllStep(tree, toDelete, x);
            toDelete := toDelete + [x];
            more := e.open;
            given := if e.open then [x] else [];
          }
          PrependTwice(handed, i, given, 1, if more then ScanFrom(simple, waiters, tree[i + 1..], env[i + 1..])
                                            else Scan(simple, waiters, [], timer, 0));
          handed := handed + given;
          i := i + 1;
        }
      }
      ScanEnd(simple, waiters, tree[|tree|..], env[|tree|..]);
    }

    /** The critical section of `spin`. Deferring the deletions to the end of
    the walk leaves the same queue as deleting each item when it is taken. */
    method SpinOnce(env: seq<Reading>) returns (timer: Option<int>, handed: seq<Item>)
      requires Valid() && |tree| <= |env|
      modifies this`items, this`tree, this`becameReady, this`locked, this`lockedPriority, this`waiters, metrics
      ensures Valid()
      ensures
        var s := ScanFrom(old(Value()), old(waiters), old(tree), env);
        Value() == s.core && waiters == s.waiters && timer == s.timer && handed == s.handed
    {
      hide Agree, ScanFrom, DeleteAll, Delete;
      WholeScanAgrees(Value(), waiters, env);
      DeleteNone(tree);
      var toDelete;
      timer, handed, toDelete := Walk(env);
      ghost var walked := Value();
      ghost var count := waiters;
      for j := 0 to |toDelete|
        invariant Value() == walked.(tree := DeleteAll(old(tree), toDelete[..j]))
        invariant waiters == count
      {
        tree := Delete(tree, toDelete[j]);
        DeleteAllStep(old(tree), toDelete[..j], toDelete[j]);
        assert toDelete[..j + 1] == toDelete[..j] + [toDelete[j]];
      }
      assert toDelete[..|toDelete|] == toDelete;
    }

    method Done(key: Key)
      requires Valid()
      modifies this`locked, this`lockedPriority, this`itemOrWaiterAdded, metrics
      ensures Valid()
      ensures Value() == Release(old(Value()), key) && itemOrWaiterAdded
    {
      hide Agree;
      ReleaseKeepsAgreement(Value(), key);
      locked := locked - {key};
      lockedPriority := lockedPriority - {key};
      metrics.Done(key);
      itemOrWaiterAdded := true;
    }

    /** May be called any number of times; the channel is closed once. */
    method ShutDown()
      requires Valid()
      modifies this`shutdown, this`closes
      ensures Valid()
      ensures shutdown && closes == 1
    {
      if !shutdown {
        shutdown := true;
        closes := closes + 1;
      }
    }

    method Len(clock: seq<Time>) returns (n: nat)
      requires Valid() && |tree| <= |clock| && 0 < |clock| && Ascending(clock)
      ensures n == CountReady(tree, clock)
      ensures |ReadyItems(tree, clock[0])| <= n <= |ReadyItems(tree, clock[|clock| - 1])|
    {
      hide CountReady, Agree, ReadyItems;
      n := 0;
      assert tree[0..] == tree && clock[0..] == clock;
      while n < |tree| && Ready(tree[n], clock[n])
        invariant 0 <= n <= |tree|
        invariant CountReady(tree, clock) == n + CountReady(tree[n..], clock[n..])
      {
        CountReadyStep(tree, clock, n);
        n := n + 1;
      }
      CountReadyStop(tree[n..], clock[n..]);
      AgreedIsSorted(Value());
      LenCountsReady(tree, clock);
    }
  }
}
