/** The queue's metrics: depth gauges, the two time maps and the counters. */
module Metrics {
  import opened Items

  /** `perPriority` tells whether the provider keeps one depth gauge per
  priority or a single one; histograms are reduced to their sample counts. */
  datatype Gauges = Gauges(
    perPriority: bool,
    depth: map<int, int>,
    addTimes: map<Key, Time>,
    startTimes: map<Key, Time>,
    adds: nat,
    latencies: nat,
    works: nat,
    retries: nat)

  /** The gauge an item of this priority is counted on. */
  function Label(g: Gauges, priority: int): int {
    if g.perPriority then priority else 0
  }

  function Depth(g: Gauges, tag: int): int {
    if tag in g.depth then g.depth[tag] else 0
  }

  function Shift(g: Gauges, priority: int, delta: int): (r: Gauges)
    ensures r.(depth := g.depth) == g
    ensures forall tag :: Depth(r, tag) == Depth(g, tag) + (if tag == Label(g, priority) then delta else 0)
  {
    g.(depth := g.depth[Label(g, priority) := Depth(g, Label(g, priority)) + delta])
  }

  function Added(g: Gauges, key: Key, priority: int, now: Time): Gauges {
    var g1 := Shift(g, priority, 1).(adds := g.adds + 1);
    if key in g.addTimes then g1 else g1.(addTimes := g.addTimes[key := now])
  }

  function Got(g: Gauges, key: Key, priority: int, now: Time): Gauges {
    var g1 := Shift(g, priority, -1).(startTimes := g.startTimes[key := now]);
    if key in g.addTimes then
      g1.(addTimes := g.addTimes - {key}, latencies := g.latencies + 1)
    else g1
  }

  function Moved(g: Gauges, oldPriority: int, newPriority: int): Gauges {
    if g.perPriority then Shift(Shift(g, oldPriority, -1), newPriority, 1) else g
  }

  function Finished(g: Gauges, key: Key): Gauges {
    if key in g.startTimes then
      g.(startTimes := g.startTimes - {key}, works := g.works + 1)
    else g
  }

  function Retried(g: Gauges): Gauges {
    g.(retries := g.retries + 1)
  }

  /** The metrics object the queue calls while it holds its own locks. */
  class QueueMetrics {
    const perPriority: bool
    var depth: map<int, int>
    var addTimes: map<Key, Time>
    var startTimes: map<Key, Time>
    var adds: nat
    var latencies: nat
    var works: nat
    var retries: nat

    function Value(): Gauges
      reads this
    {
      Gauges(perPriority, depth, addTimes, startTimes, adds, latencies, works, retries)
    }

    constructor (perPriority: bool)
      ensures Value() == Gauges(perPriority, map[], map[], map[], 0, 0, 0, 0)
    {
      this.perPriority := perPriority;
      depth, addTimes, startTimes := map[], map[], map[];
      adds, latencies, works, retries := 0, 0, 0, 0;
    }

    method ShiftDepth(priority: int, delta: int)
      modifies this`depth
      ensures Value() == Shift(old(Value()), priority, delta)
    {
      var tag := if perPriority then priority else 0;
      var level := if tag in depth then depth[tag] else 0;
      depth := depth[tag := level + delta];
    }

    method Add(key: Key, priority: int, now: Time)
      modifies this
      ensures Value() == Added(old(Value()), key, priority, now)
    {
      adds := adds + 1;
      ShiftDepth(priority, 1);
      if key !in addTimes {
        addTimes := addTimes[key := now];
      }
    }

    method Get(key: Key, priority: int, now: Time)
      modifies this
      ensures Value() == Got(old(Value()), key, priority, now)
    {
      ShiftDepth(priority, -1);
      startTimes := startTimes[key := now];
      if key in addTimes {
        latencies := latencies + 1;
        addTimes := addTimes - {key};
      }
    }

    method UpdateDepth(oldPriority: int, newPriority: int)
      modifies this
      ensures Value() == Moved(old(Value()), oldPriority, newPriority)
    {
      if perPriority {
        ShiftDepth(oldPriority, -1);
        ShiftDepth(newPriority, 1);
      }
    }

    method Done(key: Key)
      modifies this
      ensures Value() == Finished(old(Value()), key)
    {
      if key in startTimes {
        works := works + 1;
        startTimes := startTimes - {key};
      }
    }

    method Retry()
      modifies this
      ensures Value() == Retried(old(Value()))
    {
      retries := retries + 1;
    }
  }
}
