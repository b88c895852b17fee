/** What whole batches of adds, whole scans and whole length counts amount to. */
module QueueRuns {
  import opened Items
  import opened Metrics
  import opened QueueCore

  // ----- adds -------------------------------------------------------------

  /** One key of an `AddWithOpts` call, with its delay already worked out. */
  datatype Request = Request(key: Key, priority: int, readyAt: Option<Time>, now: Time)

  function AddAll(c: Core, reqs: seq<Request>): Core {
    if reqs == [] then c
    else
      var r := reqs[|reqs| - 1];
      AddKey(AddAll(c, reqs[..|reqs| - 1]), r.key, r.priority, r.readyAt, r.now)
  }

  lemma {:induction false} AddAllKeepsAgreement(c: Core, reqs: seq<Request>)
    requires Agree(c)
    ensures Agree(AddAll(c, reqs))
    ensures AddAll(c, reqs).locked == c.locked
  {
    if reqs == [] {
    } else {
      var r := reqs[|reqs| - 1];
      AddAllKeepsAgreement(c, reqs[..|reqs| - 1]);
      AddKeepsAgreement(AddAll(c, reqs[..|reqs| - 1]), r.key, r.priority, r.readyAt, r.now);
    }
  }

  function CountDelayed(reqs: seq<Request>): nat {
    if reqs == [] then 0
    else CountDelayed(reqs[..|reqs| - 1]) + if reqs[|reqs| - 1].readyAt.Some? then 1 else 0
  }

  /** The retry counter counts the delayed requests. */
  lemma {:induction false} RetriesCountDelayed(c: Core, reqs: seq<Request>)
    ensures AddAll(c, reqs).metrics.retries == c.metrics.retries + CountDelayed(reqs)
  {
    hide AddKey;
    if reqs == [] {
    } else {
      var r := reqs[|reqs| - 1];
      RetriesCountDelayed(c, reqs[..|reqs| - 1]);
      RetryIsCounted(AddAll(c, reqs[..|reqs| - 1]), r.key, r.priority, r.readyAt, r.now);
    }
  }

  lemma {:induction false} RetryIsCounted(c: Core, key: Key, priority: int, readyAt: Option<Time>, now: Time)
    ensures AddKey(c, key, priority, readyAt, now).metrics.retries == c.metrics.retries + if readyAt.Some? then 1 else 0
  {
    hide Insert, Delete, Merged;
  }

  ghost predicate Asked(reqs: seq<Request>, k: Key) {
    exists i :: 0 <= i < |reqs| && reqs[i].key == k
  }

  /** `x` carries the highest priority and the earliest ready time asked for
  its key, each of which some request did ask for. */
  ghost predicate BestOf(reqs: seq<Request>, x: Item) {
    && (forall i :: 0 <= i < |reqs| && reqs[i].key == x.key ==> reqs[i].priority <= x.priority)
    && (exists i :: 0 <= i < |reqs| && reqs[i].key == x.key && reqs[i].priority == x.priority)
    && (forall i :: 0 <= i < |reqs| && reqs[i].key == x.key ==>
          x.readyAt.None? || (reqs[i].readyAt.Some? && x.readyAt.value <= reqs[i].readyAt.value))
    && (exists i :: 0 <= i < |reqs| && reqs[i].key == x.key && reqs[i].readyAt == x.readyAt)
  }

  /** The simple table the queue stands for: items by key and the next counter. */
  datatype Table = Table(items: map<Key, Item>, counter: nat)

  function TableAdd(t: Table, r: Request): Table {
    if r.key in t.items
    then t.(items := t.items[r.key := Merged(t.items[r.key], r.priority, r.readyAt)])
    else Table(t.items[r.key := Item(r.key, t.counter, r.priority, r.readyAt)], t.counter + 1)
  }

  function TableAddAll(t: Table, reqs: seq<Request>): Table {
    if reqs == [] then t else TableAdd(TableAddAll(t, reqs[..|reqs| - 1]), reqs[|reqs| - 1])
  }

  /** The queue's adds refine the table's. */
  lemma {:induction false} AddAllRefinesTable(c: Core, reqs: seq<Request>)
    ensures
      var d := AddAll(c, reqs);
      Table(d.items, d.counter) == TableAddAll(Table(c.items, c.counter), reqs)
  {
    if reqs == [] {
    } else {
      AddAllRefinesTable(c, reqs[..|reqs| - 1]);
    }
  }

  /** The table's entry for `k` is what the requests `past`, made since it was last taken out, amount to. */
  ghost predicate Merges(items: map<Key, Item>, past: seq<Request>, k: Key) {
    && (k in items <==> Asked(past, k))
    && (k in items ==> items[k].key == k && BestOf(past, items[k]))
  }

  lemma {:induction false} TableAddMerges(t: Table, past: seq<Request>, r: Request, k: Key)
    requires Merges(t.items, past, k)
    ensures Merges(TableAdd(t, r).items, past + [r], k)
  {
    hide BestOf, Asked;
    AskedGrows(past, r, k);
    if k in t.items {
      if r.key == k { BestOfMerges(past, r, t.items[k]); } else { BestOfGrows(past, r, t.items[k]); }
    } else if r.key == k {
      BestOfFirst(past, r, TableAdd(t, r).items[k]);
    }
  }

  lemma {:induction false} TableMerges(t: Table, past: seq<Request>, reqs: seq<Request>, k: Key)
    requires Merges(t.items, past, k)
    ensures Merges(TableAddAll(t, reqs).items, past + reqs, k)
  {
    hide Merges, TableAdd;
    if reqs == [] {
      assert past + reqs == past;
    } else {
      var n := |reqs| - 1;
      TableMerges(t, past, reqs[..n], k);
      TableAddMerges(TableAddAll(t, reqs[..n]), past + reqs[..n], reqs[n], k);
      assert past + reqs[..n] + [reqs[n]] == past + reqs;
    }
  }

  lemma {:induction false} AskedGrows(rest: seq<Request>, r: Request, k: Key)
    ensures Asked(rest + [r], k) <==> Asked(rest, k) || r.key == k
  {
    var all := rest + [r];
    assert all[|rest|] == r;
    assert forall i :: 0 <= i < |rest| ==> all[i] == rest[i];
  }

  lemma {:induction false} BestOfFirst(rest: seq<Request>, r: Request, x: Item)
    requires !Asked(rest, r.key) && x.key == r.key && x.priority == r.priority && x.readyAt == r.readyAt
    ensures BestOf(rest + [r], x)
  {
    var all := rest + [r];
    assert all[|rest|] == r;
    assert forall i :: 0 <= i < |rest| ==> all[i] == rest[i];
  }

  /** However many adds a key receives, interleaved with adds of other keys and
  on top of what was asked before, it is queued once, with the best of everything asked for. */
  lemma {:induction false} AddsMerge(c: Core, past: seq<Request>, reqs: seq<Request>, k: Key)
    requires Merges(c.items, past, k)
    ensures Merges(AddAll(c, reqs).items, past + reqs, k)
  {
    hide Merges;
    AddAllRefinesTable(c, reqs);
    TableMerges(Table(c.items, c.counter), past, reqs, k);
  }

  lemma {:induction false} BestOfGrows(rest: seq<Request>, r: Request, x: Item)
    requires BestOf(rest, x) && r.key != x.key
    ensures BestOf(rest + [r], x)
  {
    var all := rest + [r];
    var i :| 0 <= i < |rest| && rest[i].key == x.key && rest[i].priority == x.priority;
    var j :| 0 <= j < |rest| && rest[j].key == x.key && rest[j].readyAt == x.readyAt;
    assert all[i] == rest[i] && all[j] == rest[j];
  }

  lemma {:induction false} BestOfMerges(rest: seq<Request>, r: Request, x: Item)
    requires BestOf(rest, x) && r.key == x.key
    ensures BestOf(rest + [r], Merged(x, r.priority, r.readyAt))
  {
    var all := rest + [r];
    var i :| 0 <= i < |rest| && rest[i].key == x.key && rest[i].priority == x.priority;
    var j :| 0 <= j < |rest| && rest[j].key == x.key && rest[j].readyAt == x.readyAt;
    assert all[i] == rest[i] && all[j] == rest[j] && all[|rest|] == r;
  }

  /** The counter a key has after a batch: the one it had, or the queue's counter at its first request. */
  function FirstCounter(t: Table, reqs: seq<Request>, k: Key): Option<nat> {
    if k in t.items then Some(t.items[k].counter)
    else if reqs == [] then None
    else
      var before := FirstCounter(t, reqs[..|reqs| - 1], k);
      if before.Some? then before
      else if reqs[|reqs| - 1].key == k then Some(TableAddAll(t, reqs[..|reqs| - 1]).counter)
      else None
  }

  lemma {:induction false} TableKeepsFirstCounter(t: Table, reqs: seq<Request>, k: Key)
    ensures
      var u := TableAddAll(t, reqs).items;
      FirstCounter(t, reqs, k) == if k in u then Some(u[k].counter) else None
  {
    if reqs == [] {
    } else {
      TableKeepsFirstCounter(t, reqs[..|reqs| - 1], k);
    }
  }

  /** A key keeps the counter of its first add: re-adding a queued key never
  changes it, and a new key's is the queue's counter at its first request. */
  lemma {:induction false} AddsKeepFirstCounter(c: Core, reqs: seq<Request>, k: Key, i: nat)
    requires k in AddAll(c, reqs).items
    requires k !in c.items ==> i < |reqs| && reqs[i].key == k && forall h :: 0 <= h < i ==> reqs[h].key != k
    ensures AddAll(c, reqs).items[k].counter == if k in c.items then c.items[k].counter else AddAll(c, reqs[..i]).counter
  {
    var t := Table(c.items, c.counter);
    AddAllRefinesTable(c, reqs);
    TableKeepsFirstCounter(t, reqs, k);
    if k !in c.items {
      AddAllRefinesTable(c, reqs[..i]);
      FirstCounterAt(t, reqs, k, i);
    }
  }

  lemma {:induction false} FirstCounterAt(t: Table, reqs: seq<Request>, k: Key, i: nat)
    requires k !in t.items && i < |reqs| && reqs[i].key == k && forall h :: 0 <= h < i ==> reqs[h].key != k
    ensures FirstCounter(t, reqs, k) == Some(TableAddAll(t, reqs[..i]).counter)
  {
    var n := |reqs| - 1;
    if i < n {
      FirstCounterAt(t, reqs[..n], k, i);
      assert reqs[..n][..i] == reqs[..i];
    } else {
      NotAskedYet(t, reqs[..n], k);
    }
  }

  lemma {:induction false} NotAskedYet(t: Table, reqs: seq<Request>, k: Key)
    requires k !in t.items && forall h :: 0 <= h < |reqs| ==> reqs[h].key != k
    ensures FirstCounter(t, reqs, k) == None
  {
    if reqs == [] {
    } else {
      NotAskedYet(t, reqs[..|reqs| - 1], k);
    }
  }

  lemma {:induction false} AddAllSplits(c: Core, reqs: seq<Request>, j: nat)
    requires j <= |reqs|
    ensures AddAll(c, reqs) == AddAll(AddAll(c, reqs[..j]), reqs[j..])
  {
    hide AddKey;
    if j == |reqs| {
      assert reqs[..j] == reqs && reqs[j..] == [];
    } else {
      var n := |reqs| - 1;
      AddAllSplits(c, reqs[..n], j);
      assert reqs[..n][..j] == reqs[..j] && reqs[..n][j..] == reqs[j..][..n - j];
    }
  }

  /** Counters follow the order of first adds: whenever one key is queued while
  another is not, the first is ahead of the second from then on, however often
  either is added again. */
  lemma {:induction false} AddsKeepArrivalOrder(c: Core, reqs: seq<Request>, j: nat, k: Key, l: Key)
    requires Agree(c) && j <= |reqs|
    requires k in AddAll(c, reqs[..j]).items && l !in AddAll(c, reqs[..j]).items && l in AddAll(c, reqs).items
    ensures k in AddAll(c, reqs).items && AddAll(c, reqs).items[k].counter < AddAll(c, reqs).items[l].counter
  {
    hide AddAll;
    AddAllSplits(c, reqs, j);
    AddAllKeepsAgreement(c, reqs[..j]);
    var d, rest := AddAll(c, reqs[..j]), reqs[j..];
    var t := Table(d.items, d.counter);
    AddAllRefinesTable(d, rest);
    TableKeepsFirstCounter(t, rest, k);
    TableKeepsFirstCounter(t, rest, l);
    FirstCounterIsNew(t, rest, l);
  }

  lemma {:induction false} FirstCounterIsNew(t: Table, reqs: seq<Request>, k: Key)
    requires k !in t.items && FirstCounter(t, reqs, k).Some?
    ensures FirstCounter(t, reqs, k).value >= t.counter
  {
    if FirstCounter(t, reqs[..|reqs| - 1], k).Some? {
      FirstCounterIsNew(t, reqs[..|reqs| - 1], k);
    } else {
      CounterGrows(t, reqs[..|reqs| - 1]);
    }
  }

  lemma {:induction false} CounterGrows(t: Table, reqs: seq<Request>)
    ensures TableAddAll(t, reqs).counter >= t.counter
  {
    if reqs == [] {
    } else {
      CounterGrows(t, reqs[..|reqs| - 1]);
    }
  }

  // ----- scans ------------------------------------------------------------

  /** What one visited item sees: the clock, the getters that announced
  themselves since the previous visit, and whether a hand-off at this item is
  received (`open`) or given up because the queue was shut down. */
  datatype Reading = Reading(now: Time, arrived: nat, open: bool)

  /** `handed` are the items removed and received, `timer` the delay until the
  next ready item, `visited` how many items were found ready. */
  datatype Scan = Scan(core: Core, waiters: nat, handed: seq<Item>, timer: Option<int>, visited: nat)

  /** The walk over the tree in `spin`. */
  function ScanFrom(c: Core, waiters: nat, todo: seq<Item>, env: seq<Reading>): Scan
    requires |todo| <= |env|
    decreases |todo|
  {
    if todo == [] then
      Scan(c, waiters, [], None, 0)
    else
      var x, e := todo[0], env[0];
      if !Ready(x, e.now) then
        Scan(c, waiters + e.arrived, [], Some(x.readyAt.value - e.now), 0)
      else
        var c1 := MarkReady(c, x, e.now);
        var w := waiters + e.arrived;
        if w == 0 || x.key in c1.locked then
          var s := ScanFrom(c1, w, todo[1..], env[1..]);
          s.(visited := s.visited + 1)
        else if e.open then
          var s := ScanFrom(Take(c1, x, e.now), w - 1, todo[1..], env[1..]);
          s.(handed := [x] + s.handed, visited := s.visited + 1)
        else
          Scan(Take(c1, x, e.now), w - 1, [], None, 1)
  }

  /** The clock never runs backwards during a scan. */
  ghost predicate Monotone(env: seq<Reading>) {
    forall i, j :: 0 <= i < j < |env| ==> env[i].now <= env[j].now
  }

  ghost predicate AllOpen(env: seq<Reading>) {
    forall i :: 0 <= i < |env| ==> env[i].open
  }

  function Unlocked(t: seq<Item>, locked: set<Key>): seq<Item> {
    if t == [] then []
    else (if t[0].key in locked then [] else [t[0]]) + Unlocked(t[1..], locked)
  }

  ghost predicate DistinctKeys(t: seq<Item>) {
    forall i, j :: 0 <= i < j < |t| ==> t[i].key != t[j].key
  }

  lemma {:induction false} TreeKeysDistinct(c: Core)
    requires Indexed(c)
    ensures DistinctKeys(c.tree)
  {
    forall i, j | 0 <= i < j < |c.tree| ensures c.tree[i].key != c.tree[j].key {
      assert Less(c.tree[i], c.tree[j]);
      assert c.tree[i] in c.tree && c.tree[j] in c.tree;
    }
  }

  /** How many leading items are ready when their turn comes. */
  function ReadyPrefix(todo: seq<Item>, env: seq<Reading>): (n: nat)
    requires |todo| <= |env|
    ensures n <= |todo|
    ensures n < |todo| ==> !Ready(todo[n], env[n].now)
  {
    if todo == [] || !Ready(todo[0], env[0].now) then 0 else 1 + ReadyPrefix(todo[1..], env[1..])
  }

  /** Who is served, in terms of the keys locked when the scan began alone. */
  function Served(locked: set<Key>, waiters: nat, todo: seq<Item>, env: seq<Reading>): seq<Item>
    requires |todo| <= |env|
    decreases |todo|
  {
    if todo == [] || !Ready(todo[0], env[0].now) then []
    else
      var w := waiters + env[0].arrived;
      if w == 0 || todo[0].key in locked
      then Served(locked, w, todo[1..], env[1..])
      else [todo[0]] + Served(locked, w - 1, todo[1..], env[1..])
  }

  /** Keys locked during a scan are keys of items already passed. */
  lemma {:induction false} ServedIgnores(locked: set<Key>, k: Key, waiters: nat, todo: seq<Item>, env: seq<Reading>)
    requires |todo| <= |env|
    requires forall i :: 0 <= i < |todo| ==> todo[i].key != k
    ensures Served(locked + {k}, waiters, todo, env) == Served(locked, waiters, todo, env)
    decreases |todo|
  {
    if todo == [] || !Ready(todo[0], env[0].now) {
    } else {
      var w := waiters + env[0].arrived;
      ServedIgnores(locked, k, w, todo[1..], env[1..]);
      if w > 0 { ServedIgnores(locked, k, w - 1, todo[1..], env[1..]); }
    }
  }

  lemma {:induction false} VisitLocks(c: Core, x: Item, now: Time)
    ensures MarkReady(c, x, now).locked == c.locked
    ensures Take(MarkReady(c, x, now), x, now).locked == c.locked + {x.key}
  {
  }

  lemma {:induction false} ScanServes(c: Core, waiters: nat, todo: seq<Item>, env: seq<Reading>)
    requires |todo| <= |env| && DistinctKeys(todo) && AllOpen(env)
    ensures ScanFrom(c, waiters, todo, env).handed == Served(c.locked, waiters, todo, env)
    decreases |todo|
  {
    hide MarkReady, Take;
    if todo == [] || !Ready(todo[0], env[0].now) {
    } else {
      var x, e := todo[0], env[0];
      var rest := todo[1..];
      assert forall i :: 0 <= i < |rest| ==> rest[i] == todo[i + 1] && rest[i].key != x.key;
      var c1, w := MarkReady(c, x, e.now), waiters + e.arrived;
      VisitLocks(c, x, e.now);
      if w == 0 || x.key in c1.locked {
        ScanServes(c1, w, rest, env[1..]);
      } else {
        ScanServes(Take(c1, x, e.now), w - 1, rest, env[1..]);
        ServedIgnores(c.locked, x.key, w - 1, rest, env[1..]);
      }
    }
  }

  lemma {:induction false} ScanVisits(c: Core, waiters: nat, todo: seq<Item>, env: seq<Reading>)
    requires |todo| <= |env| && AllOpen(env)
    ensures
      var s, n := ScanFrom(c, waiters, todo, env), ReadyPrefix(todo, env);
      && s.visited == n
      && s.timer == if n == |todo| then None else Some(todo[n].readyAt.value - env[n].now)
    decreases |todo|
  {
    hide MarkReady, Take;
    if todo == [] || !Ready(todo[0], env[0].now) {
    } else {
      var x, e := todo[0], env[0];
      var c1, w := MarkReady(c, x, e.now), waiters + e.arrived;
      if w == 0 || x.key in c1.locked {
        ScanVisits(c1, w, todo[1..], env[1..]);
      } else {
        ScanVisits(Take(c1, x, e.now), w - 1, todo[1..], env[1..]);
      }
    }
  }

  /** The two begin with the same `n` items, or with all of `t` if it is shorter. */
  ghost predicate BeginsLike(s: seq<Item>, t: seq<Item>, n: nat) {
    var m := Min(n, |t|);
    |s| >= m && s[..m] == t[..m]
  }

  lemma {:induction false} BeginsLikeFewer(s: seq<Item>, t: seq<Item>, k: nat, n: nat)
    requires n <= k && BeginsLike(s, t, k)
    ensures BeginsLike(s, t, n)
  {
    var i, j := Min(n, |t|), Min(k, |t|);
    assert s[..i] == s[..j][..i];
    assert t[..i] == t[..j][..i];
  }

  lemma {:induction false} BeginsLikeCons(x: Item, s: seq<Item>, t: seq<Item>, n: nat)
    requires BeginsLike(s, t, n)
    ensures BeginsLike([x] + s, [x] + t, n + 1)
  {
    var m := Min(n, |t|);
    assert ([x] + s)[..m + 1] == [x] + s[..m];
    assert ([x] + t)[..m + 1] == [x] + t[..m];
  }

  lemma {:induction false} BeginsLikeNothing(s: seq<Item>, t: seq<Item>)
    ensures BeginsLike(s, t, 0)
  {
  }

  lemma {:induction false} UnlockedCons(t: seq<Item>, locked: set<Key>)
    ensures Unlocked(t, locked) == if t == [] then [] else (if t[0].key in locked then [] else [t[0]]) + Unlocked(t[1..], locked)
  {
  }

  lemma {:induction false} ServedInOrder(locked: set<Key>, waiters: nat, todo: seq<Item>, env: seq<Reading>)
    requires |todo| <= |env|
    ensures BeginsLike(Served(locked, waiters, todo, env), Unlocked(todo[..ReadyPrefix(todo, env)], locked), waiters)
    decreases |todo|
  {
    hide Ready, Unlocked, BeginsLike;
    var served := Served(locked, waiters, todo, env);
    if todo == [] || !Ready(todo[0], env[0].now) {
      assert todo[..0] == [];
      UnlockedCons([], locked);
      EmptyBegins(waiters);
    } else if waiters == 0 {
      BeginsLikeNothing(served, Unlocked(todo[..ReadyPrefix(todo, env)], locked));
    } else {
      var rest, later, w := todo[1..], env[1..], waiters + env[0].arrived;
      var m := ReadyPrefix(rest, later);
      assert todo[..m + 1][1..] == rest[..m];
      UnlockedCons(todo[..m + 1], locked);
      var eligible := Unlocked(rest[..m], locked);
      if todo[0].key in locked {
        assert [] + eligible == eligible;
        ServedInOrder(locked, w, rest, later);
        BeginsLikeFewer(served, eligible, w, waiters);
      } else {
        var others := Served(locked, w - 1, rest, later);
        ServedInOrder(locked, w - 1, rest, later);
        BeginsLikeFewer(others, eligible, w - 1, waiters - 1);
        BeginsLikeCons(todo[0], others, eligible, waiters - 1);
      }
    }
  }

  lemma {:induction false} EmptyBegins(n: nat)
    ensures BeginsLike([], [], n)
  {
  }

  /** The unlocked ones among some items. */
  ghost function Eligible(t: seq<Item>, locked: set<Key>): set<Item> {
    set x | x in t && x.key !in locked
  }

  lemma {:induction false} UnlockedAreThose(t: seq<Item>, locked: set<Key>)
    ensures forall x :: x in Unlocked(t, locked) <==> x in t && x.key !in locked
  {
    if t == [] {
    } else {
      UnlockedAreThose(t[1..], locked);
    }
  }

  lemma {:induction false} UnlockedIsSorted(t: seq<Item>, locked: set<Key>)
    requires Sorted(t)
    ensures Sorted(Unlocked(t, locked))
  {
    hide Less;
    if t == [] {
    } else {
      UnlockedIsSorted(t[1..], locked);
      UnlockedAreThose(t[1..], locked);
      var u := Unlocked(t[1..], locked);
      forall i | 0 <= i < |u| ensures Less(t[0], u[i]) {
        assert u[i] in t[1..];
      }
    }
  }

  lemma {:induction false} EligibleCons(x: Item, rest: seq<Item>, locked: set<Key>)
    requires x !in rest
    ensures |Eligible([x] + rest, locked)| == |Eligible(rest, locked)| + if x.key in locked then 0 else 1
  {
    var e := Eligible(rest, locked);
    assert Eligible([x] + rest, locked) == if x.key in locked then e else e + {x};
  }

  lemma {:induction false} UnlockedAreEligible(t: seq<Item>, locked: set<Key>)
    requires Sorted(t)
    ensures |Unlocked(t, locked)| == |Eligible(t, locked)|
  {
    hide Eligible;
    if t == [] {
      NoneEligible(locked);
    } else {
      assert t == [t[0]] + t[1..];
      UnlockedAreEligible(t[1..], locked);
      assert t[0] !in t[1..] by {
        assert forall i :: 0 < i < |t| ==> Less(t[0], t[i]);
      }
      EligibleCons(t[0], t[1..], locked);
    }
  }

  lemma {:induction false} NoneEligible(locked: set<Key>)
    ensures Eligible([], locked) == {}
  {
  }

  lemma {:induction false} ServedIsSorted(locked: set<Key>, waiters: nat, todo: seq<Item>, env: seq<Reading>)
    requires |todo| <= |env| && Sorted(todo)
    ensures Sorted(Served(locked, waiters, todo, env))
    ensures forall x :: x in Served(locked, waiters, todo, env) ==> x in todo
    decreases |todo|
  {
    if todo == [] || !Ready(todo[0], env[0].now) {
    } else {
      var w, x, rest := waiters + env[0].arrived, todo[0], todo[1..];
      ServedIsSorted(locked, w, rest, env[1..]);
      if w > 0 {
        ServedIsSorted(locked, w - 1, rest, env[1..]);
        var u := Served(locked, w - 1, rest, env[1..]);
        forall i | 0 <= i < |u| ensures Less(x, u[i]) {
          assert u[i] in rest;
        }
      }
    }
  }

  /** Of the items found ready and unlocked, the first `n` handed out are the
  first to be served, and all are handed out in that order. */
  ghost predicate FirstServedFirst(handed: seq<Item>, n: nat, ready: seq<Item>, locked: set<Key>) {
    && n <= |handed|
    && (forall x :: x in handed ==> x in ready && x.key !in locked)
    && (forall i, j :: 0 <= i < j < |handed| ==> ComesFirst(handed[i], handed[j]))
    && (forall i, y :: 0 <= i < n && y in ready && y.key !in locked ==>
          y in handed[..i + 1] || ComesFirst(handed[i], y))
  }

  lemma {:induction false} PrefixServesFirst(handed: seq<Item>, n: nat, ready: seq<Item>, locked: set<Key>)
    requires Sorted(ready) && Sorted(handed) && forall x :: x in handed ==> x in ready && x.key !in locked
    requires n <= |handed| && n <= |Unlocked(ready, locked)| && handed[..n] == Unlocked(ready, locked)[..n]
    ensures FirstServedFirst(handed, n, ready, locked)
  {
    hide Less, ComesFirst, Unlocked;
    UnlockedAreThose(ready, locked);
    UnlockedIsSorted(ready, locked);
    var u := Unlocked(ready, locked);
    forall i, j | 0 <= i < j < |handed| ensures ComesFirst(handed[i], handed[j]) {
      LessMeansFirst(handed[i], handed[j]);
    }
    forall i, y | 0 <= i < n && y in ready && y.key !in locked
      ensures y in handed[..i + 1] || ComesFirst(handed[i], y)
    {
      assert y in u;
      var p :| 0 <= p < |u| && u[p] == y;
      assert handed[i] == handed[..n][i] == u[i];
      if p <= i {
        assert handed[..i + 1][p] == handed[..n][p] == u[p];
      } else {
        LessMeansFirst(u[i], u[p]);
      }
    }
  }

  /** A scan that starts with `waiters` waiting getters serves them the most
  urgent of the unlocked items it finds ready, or all of them, and every later
  arrival after those, in the order of urgency. */
  lemma {:induction false} ScanServesFirstThingsFirst(c: Core, waiters: nat, env: seq<Reading>)
    requires Indexed(c) && |c.tree| <= |env| && AllOpen(env)
    ensures
      var s := ScanFrom(c, waiters, c.tree, env);
      && s.visited <= |c.tree|
      && var ready := c.tree[..s.visited];
         FirstServedFirst(s.handed, Min(waiters, |Eligible(ready, c.locked)|), ready, c.locked)
  {
    hide ScanFrom, Served, Unlocked, FirstServedFirst, Less;
    TreeKeysDistinct(c);
    ScanServes(c, waiters, c.tree, env);
    ServedIsSorted(c.locked, waiters, c.tree, env);
    ScanIsNeverEarly(c, waiters, env);
    ScanHandsOutInOrder(c, waiters, env);
    var s := ScanFrom(c, waiters, c.tree, env);
    var ready := c.tree[..s.visited];
    UnlockedAreEligible(ready, c.locked);
    PrefixServesFirst(s.handed, Min(waiters, |Eligible(ready, c.locked)|), ready, c.locked);
  }

  /** A scan that starts with `waiters` waiting getters hands out, first and in
  tree order, that many of the unlocked items it finds ready, or all of them. */
  lemma {:induction false} ScanHandsOutInOrder(c: Core, waiters: nat, env: seq<Reading>)
    requires Indexed(c) && |c.tree| <= |env| && AllOpen(env)
    ensures
      var s := ScanFrom(c, waiters, c.tree, env);
      && s.visited <= |c.tree|
      && var eligible := Unlocked(c.tree[..s.visited], c.locked);
         var n := Min(waiters, |eligible|);
         |s.handed| >= n && s.handed[..n] == eligible[..n]
  {
    TreeKeysDistinct(c);
    ScanServes(c, waiters, c.tree, env);
    ScanVisits(c, waiters, c.tree, env);
    ServedInOrder(c.locked, waiters, c.tree, env);
  }

  lemma {:induction false} ServedWereReady(locked: set<Key>, waiters: nat, todo: seq<Item>, env: seq<Reading>)
    requires |todo| <= |env|
    ensures
      var n := ReadyPrefix(todo, env);
      && (forall i :: 0 <= i < n ==> Ready(todo[i], env[i].now))
      && (forall x :: x in Served(locked, waiters, todo, env) ==> x in todo[..n] && x.key !in locked)
    decreases |todo|
  {
    if todo == [] || !Ready(todo[0], env[0].now) {
    } else {
      var w, n := waiters + env[0].arrived, ReadyPrefix(todo, env);
      ServedWereReady(locked, w, todo[1..], env[1..]);
      if w > 0 { ServedWereReady(locked, w - 1, todo[1..], env[1..]); }
      forall i | 0 <= i < n ensures Ready(todo[i], env[i].now) {
        assert i > 0 ==> todo[i] == todo[1..][i - 1] && env[i] == env[1..][i - 1];
      }
      assert todo[..n] == [todo[0]] + todo[1..][..n - 1];
    }
  }

  /** Nothing is handed out before its time, and no locked key is handed out. */
  lemma {:induction false} ScanIsNeverEarly(c: Core, waiters: nat, env: seq<Reading>)
    requires Indexed(c) && |c.tree| <= |env| && AllOpen(env)
    ensures
      var s := ScanFrom(c, waiters, c.tree, env);
      && s.visited <= |c.tree|
      && (forall i :: 0 <= i < s.visited ==> Ready(c.tree[i], env[i].now))
      && (forall x :: x in s.handed ==> x in c.tree[..s.visited] && x.key !in c.locked)
  {
    TreeKeysDistinct(c);
    ScanServes(c, waiters, c.tree, env);
    ScanVisits(c, waiters, c.tree, env);
    ServedWereReady(c.locked, waiters, c.tree, env);
  }

  lemma {:induction false} PrefixMissesNothing(todo: seq<Item>, env: seq<Reading>)
    requires |todo| <= |env| && Sorted(todo) && Monotone(env)
    ensures
      var n := ReadyPrefix(todo, env);
      n < |todo| ==>
        && env[0].now <= env[n].now
        && !Ready(todo[n], env[n].now)
        && (forall i :: n <= i < |todo| ==> todo[i].readyAt.Some? && todo[n].readyAt.value <= todo[i].readyAt.value)
  {
    if todo == [] {
    } else {
      if Ready(todo[0], env[0].now) {
        PrefixMissesNothing(todo[1..], env[1..]);
        var n := ReadyPrefix(todo, env);
        forall i | n <= i < |todo| ensures todo[i].readyAt.Some? && todo[n].readyAt.value <= todo[i].readyAt.value {
          assert todo[i] == todo[1..][i - 1];
        }
      } else {
        forall i | 0 <= i < |todo| ensures todo[i].readyAt.Some? && todo[0].readyAt.value <= todo[i].readyAt.value {
          assert i > 0 ==> Less(todo[0], todo[i]);
        }
      }
    }
  }

  /** The early stop loses nothing: every item ready when the scan began is
  visited, and a scan that stops short sets its timer to go off exactly at the
  earliest ready time among the items it left. */
  lemma {:induction false} ScanMissesNothing(c: Core, waiters: nat, env: seq<Reading>)
    requires Indexed(c) && |c.tree| <= |env| && Monotone(env) && AllOpen(env)
    ensures
      var s := ScanFrom(c, waiters, c.tree, env);
      var t := c.tree;
      && s.visited <= |t|
      && (s.timer.None? <==> s.visited == |t|)
      && (s.visited < |t| ==>
            var due := env[s.visited].now + s.timer.value;
            && s.timer.value > 0
            && t[s.visited].readyAt == Some(due)
            && forall i :: s.visited <= i < |t| ==>
                 !Ready(t[i], env[0].now) && due <= t[i].readyAt.value)
  {
    hide ScanFrom;
    ScanVisits(c, waiters, c.tree, env);
    PrefixMissesNothing(c.tree, env);
  }

  /** One visit keeps agreement and leaves the items still to be visited in the tree. */
  lemma {:induction false} VisitKeepsAgreement(c: Core, x: Item, rest: seq<Item>, now: Time)
    requires Agree(c) && x in c.tree
    requires forall y :: y in rest ==> y in c.tree && y != x
    ensures
      var c1 := MarkReady(c, x, now);
      && Agree(c1) && c1.tree == c.tree && c1.locked == c.locked
      && (x.key !in c.locked ==> Agree(Take(c1, x, now)) && forall y :: y in rest ==> y in Take(c1, x, now).tree)
  {
    var c1 := MarkReady(c, x, now);
    MarkReadyKeepsAgreement(c, x, now);
    if x.key !in c.locked {
      TakeKeepsAgreement(c1, x, now);
      DeleteKeepsSorted(c1.tree, x);
      forall y | y in rest ensures y in Take(c1, x, now).tree {
        if Equiv(y, x) { EquivIsSame(c1, y, x); }
      }
    }
  }

  /** A scan keeps table, tree and metrics in agreement, whatever arrives
  meanwhile and even if shutdown cuts it short. */
  lemma {:induction false} ScanKeepsAgreement(c: Core, waiters: nat, todo: seq<Item>, env: seq<Reading>)
    requires Agree(c) && |todo| <= |env| && DistinctKeys(todo)
    requires forall x :: x in todo ==> x in c.tree
    ensures Agree(ScanFrom(c, waiters, todo, env).core)
    decreases |todo|
  {
    hide Agree, MarkReady, Take;
    if todo == [] || !Ready(todo[0], env[0].now) {
    } else {
      var x, e := todo[0], env[0];
      var rest := todo[1..];
      assert forall i :: 0 <= i < |rest| ==> rest[i] == todo[i + 1] && rest[i].key != x.key;
      VisitKeepsAgreement(c, x, rest, e.now);
      var c1, w := MarkReady(c, x, e.now), waiters + e.arrived;
      if w == 0 || x.key in c1.locked {
        ScanKeepsAgreement(c1, w, rest, env[1..]);
      } else if e.open {
        ScanKeepsAgreement(Take(c1, x, e.now), w - 1, rest, env[1..]);
      }
    }
  }

  // ----- length -----------------------------------------------------------

  /** The count in `Len`: it reads the clock per item and stops at the first item that is not ready. */
  function CountReady(t: seq<Item>, clock: seq<Time>): nat
    requires |t| <= |clock|
  {
    if t == [] || !Ready(t[0], clock[0]) then 0 else 1 + CountReady(t[1..], clock[1..])
  }

  ghost predicate Ascending(clock: seq<Time>) {
    forall i, j :: 0 <= i < j < |clock| ==> clock[i] <= clock[j]
  }

  ghost function ReadyItems(t: seq<Item>, now: Time): set<Item> {
    set x | x in t && Ready(x, now)
  }

  lemma {:induction false} ReadyItemsCons(x: Item, rest: seq<Item>, now: Time)
    requires x !in rest
    ensures Ready(x, now) ==> |ReadyItems([x] + rest, now)| == 1 + |ReadyItems(rest, now)|
    ensures !Ready(x, now) ==> ReadyItems([x] + rest, now) == ReadyItems(rest, now)
  {
    assert Ready(x, now) ==> ReadyItems([x] + rest, now) == {x} + ReadyItems(rest, now);
  }

  lemma {:induction false} NothingReady(now: Time)
    ensures ReadyItems([], now) == {}
  {
  }

  lemma {:induction false} NoneReady(t: seq<Item>, now: Time)
    requires Sorted(t) && t != [] && !Ready(t[0], now)
    ensures ReadyItems(t, now) == {}
  {
    forall y | y in t ensures !Ready(y, now) {
      var i :| 0 <= i < |t| && t[i] == y;
      assert i > 0 ==> Less(t[0], t[i]);
    }
  }

  lemma {:induction false} ReadyItemsGrow(t: seq<Item>, now: Time, later: Time)
    requires now <= later
    ensures |ReadyItems(t, now)| <= |ReadyItems(t, later)|
  {
    SubsetSize(ReadyItems(t, now), ReadyItems(t, later));
  }

  /** `Len` counts at least every item ready at its first clock reading and at
  most every item ready at its last, so under one reading it is exact. */
  lemma {:induction false} LenCountsReady(t: seq<Item>, clock: seq<Time>)
    requires Sorted(t) && |t| <= |clock| && 0 < |clock| && Ascending(clock)
    ensures |ReadyItems(t, clock[0])| <= CountReady(t, clock) <= |ReadyItems(t, clock[|clock| - 1])|
  {
    hide ReadyItems;
    NothingReady(clock[0]);
    if t == [] {
    } else {
      var x, rest, first, last := t[0], t[1..], clock[0], clock[|clock| - 1];
      assert t == [x] + rest;
      assert x !in rest by {
        assert forall i :: 0 < i < |t| ==> Less(t[0], t[i]);
      }
      if !Ready(x, first) {
        NoneReady(t, first);
      } else {
        ReadyItemsCons(x, rest, first);
        ReadyItemsCons(x, rest, last);
        if |clock| == 1 {
          assert rest == [];
        } else {
          LenCountsReady(rest, clock[1..]);
          ReadyItemsGrow(rest, first, clock[1]);
        }
      }
    }
  }

  lemma {:induction false} SubsetSize<T>(a: set<T>, b: set<T>)
    requires a <= b
    ensures |a| <= |b|
  {
    if a != {} {
      var x :| x in a;
      SubsetSize(a - {x}, b - {x});
    }
  }
}
