/** How often a failing event is processed before it is dropped: the worker's
`Forget`, `NumRequeues` and rate-limited re-add on top of the limiter. */
module Retry {
  import opened Items
  import opened Limiter

  /** One failed processing of an event: when the worker calls `Forget`, when
  `handleErr` asks the limiter for the next delay, and whether it then finds
  the event's digest in the map, put there for another event. */
  datatype Round = Round(forgetAt: Time, retryAt: Time, present: bool)

  /** What becomes of the event, and the limiter's table: it is added again, or
  dropped because of the limit, or left to the event that holds the digest. */
  datatype Outcome = Requeued(table: Failures) | Dropped(table: Failures) | Left(table: Failures)

  /** The worker's side of a failure. */
  function FailOnce(f: Failures, c: Config, maxRetries: nat, k: Key, r: Round): Outcome {
    var g := Forgotten(f, c, k, r.forgetAt);
    if Attempts(g, k) >= maxRetries then Dropped(g)
    else if r.present then Left(g)
    else Requeued(Retried(g, c, k, r.retryAt).1)
  }

  /** Failures of many events, in any order. */
  function FailAll(f: Failures, c: Config, maxRetries: nat, rounds: seq<(Key, Round)>): Failures {
    if rounds == [] then f
    else
      var g := FailAll(f, c, maxRetries, rounds[..|rounds| - 1]);
      var (k, r) := rounds[|rounds| - 1];
      FailOnce(g, c, maxRetries, k, r).table
  }

  /** In every run, no event's recorded attempts ever exceed the retry limit. */
  lemma {:induction false} AttemptsNeverExceedLimit(c: Config, maxRetries: nat, rounds: seq<(Key, Round)>, k: Key)
    ensures Attempts(FailAll(map[], c, maxRetries, rounds), k) <= maxRetries
  {
    if rounds == [] {
    } else {
      AttemptsNeverExceedLimit(c, maxRetries, rounds[..|rounds| - 1], k);
    }
  }

  /** An event that fails every time, until it is no longer added again. */
  function FailRepeatedly(f: Failures, c: Config, maxRetries: nat, k: Key, rounds: seq<Round>): Outcome {
    if rounds == [] then Requeued(f)
    else
      var g := FailRepeatedly(f, c, maxRetries, k, rounds[..|rounds| - 1]);
      if g.Requeued? then FailOnce(g.table, c, maxRetries, k, rounds[|rounds| - 1]) else g
  }

  /** Every round adds the event again, and none of them, `Forget` or `When`,
  comes more than twice the maximum delay after the previous `When`. */
  ghost predicate PromptRounds(c: Config, rounds: seq<Round>) {
    && (forall i :: 0 <= i < |rounds| ==> !rounds[i].present)
    && (forall i :: 0 <= i < |rounds| - 1 ==> PromptPair(c, rounds[i], rounds[i + 1]))
  }

  predicate PromptPair(c: Config, r: Round, next: Round) {
    next.forgetAt - r.retryAt <= 2 * c.max && next.retryAt - r.retryAt <= 2 * c.max
  }

  lemma {:induction false} PromptRoundsGrow(c: Config, before: seq<Round>, r: Round)
    ensures PromptRounds(c, before + [r]) <==>
      PromptRounds(c, before) && !r.present && (before != [] ==> PromptPair(c, before[|before| - 1], r))
  {
    var rounds := before + [r];
    assert forall i :: 0 <= i < |before| ==> rounds[i] == before[i];
    assert rounds[|before|] == r;
    if PromptRounds(c, rounds) && before != [] {
      assert PromptPair(c, rounds[|before| - 1], rounds[|before|]);
      assert forall i :: 0 <= i < |before| - 1 ==> PromptPair(c, rounds[i], rounds[i + 1]) ==> PromptPair(c, before[i], before[i + 1]);
    }
  }

  /** The table counts at most one attempt a round, and all of them exactly if the rounds are prompt. */
  lemma {:induction false} PromptRoundsCount(f: Failures, c: Config, maxRetries: nat, k: Key, rounds: seq<Round>)
    requires k !in f && |rounds| <= maxRetries
    ensures
      var o := FailRepeatedly(f, c, maxRetries, k, rounds);
      && !o.Dropped?
      && (o.Requeued? ==> Attempts(o.table, k) <= |rounds|)
      && (o.Requeued? && Attempts(o.table, k) == |rounds| <==> PromptRounds(c, rounds))
      && (PromptRounds(c, rounds) && rounds != [] ==> k in o.table && o.table[k].last == rounds[|rounds| - 1].retryAt)
  {
    hide PromptRounds, FailOnce;
    if rounds == [] {
      NoRounds(c);
    } else {
      var before, r := rounds[..|rounds| - 1], rounds[|rounds| - 1];
      assert rounds == before + [r];
      PromptRoundsGrow(c, before, r);
      PromptRoundsCount(f, c, maxRetries, k, before);
      var o := FailRepeatedly(f, c, maxRetries, k, before);
      if o.Requeued? {
        FailOnceCounts(o.table, c, maxRetries, k, r);
      }
    }
  }

  /** What a failure that is not dropped does to the event's entry. */
  lemma {:induction false} FailOnceCounts(f: Failures, c: Config, maxRetries: nat, k: Key, r: Round)
    requires Attempts(f, k) < maxRetries
    ensures
      var o := FailOnce(f, c, maxRetries, k, r);
      && (r.present ==> o.Left?)
      && (!r.present ==> o.Requeued?)
      && (!r.present && k !in f ==> o.table == f[k := Failure(1, r.retryAt)])
      && (!r.present && k in f ==>
            Attempts(o.table, k) <= f[k].attempts || o.table == f[k := Failure(f[k].attempts + 1, r.retryAt)])
      && (!r.present && k in f && f[k].attempts > 0 ==>
            (o.table == f[k := Failure(f[k].attempts + 1, r.retryAt)] <==>
               r.forgetAt - f[k].last <= 2 * c.max && r.retryAt - f[k].last <= 2 * c.max))
  {
    hide Backoff;
  }

  lemma {:induction false} NoRounds(c: Config)
    ensures PromptRounds(c, [])
  {
  }

  /** An always failing event is dropped at its (maxRetries + 1)-th failure, and
  never before, exactly if up to then it was added again every time, every
  `Forget` came within twice the maximum delay of the previous `When`, and so
  did every `When` that had to be counted, which the last one has not. */
  lemma {:induction false} DroppedExactlyIfPrompt(f: Failures, c: Config, maxRetries: nat, k: Key, rounds: seq<Round>)
    requires k !in f && |rounds| == maxRetries + 1
    ensures !FailRepeatedly(f, c, maxRetries, k, rounds[..maxRetries]).Dropped?
    ensures FailRepeatedly(f, c, maxRetries, k, rounds).Dropped? <==>
      && PromptRounds(c, rounds[..maxRetries])
      && (maxRetries > 0 ==> rounds[maxRetries].forgetAt - rounds[maxRetries - 1].retryAt <= 2 * c.max)
  {
    hide PromptRounds;
    var before := rounds[..maxRetries];
    PromptRoundsCount(f, c, maxRetries, k, before);
  }

  /** Each round comes more than twice the maximum delay after the previous retry. */
  ghost predicate SlowRounds(c: Config, rounds: seq<Round>) {
    forall i :: 0 <= i < |rounds| - 1 ==> rounds[i + 1].forgetAt - rounds[i].retryAt > 2 * c.max
  }

  /** In particular an event whose failures are far enough apart is never dropped. */
  lemma {:induction false} SlowEventIsNeverDropped(c: Config, maxRetries: nat, k: Key, rounds: seq<Round>)
    requires SlowRounds(c, rounds) && maxRetries > 0
    ensures
      var o := FailRepeatedly(map[], c, maxRetries, k, rounds);
      && !o.Dropped?
      && (o.Requeued? ==> Attempts(o.table, k) <= 1)
      && (o.Requeued? && rounds != [] ==> k in o.table && o.table[k].last == rounds[|rounds| - 1].retryAt)
  {
    if rounds == [] {
    } else {
      var before := rounds[..|rounds| - 1];
      assert forall i :: 0 <= i < |before| ==> before[i] == rounds[i];
      SlowEventIsNeverDropped(c, maxRetries, k, before);
      if before != [] {
        assert rounds[|before|].forgetAt - rounds[|before| - 1].retryAt > 2 * c.max;
      }
    }
  }

  /** Rounds in which every `Forget` comes within twice the maximum delay of the
  previous `When`, but every second `When` itself comes just after that bound. */
  function Straddling(c: Config, n: nat): (rounds: seq<Round>)
    ensures |rounds| == n
  {
    if n == 0 then [] else Straddling(c, n - 1) + [Straddle(Start(c, n - 1), c, (n - 1) % 2 == 0)]
  }

  function Straddle(start: Time, c: Config, even: bool): Round {
    if even then Round(start, start, false) else Round(start + 2 * c.max, start + 2 * c.max + 1, false)
  }

  function Start(c: Config, i: nat): Time {
    if i < 2 then 0 else Start(c, i - 2) + 2 * c.max + 1
  }

  lemma {:induction false} StartAdvances(c: Config, i: nat)
    ensures Start(c, i + 1) == if i % 2 == 0 then Start(c, i) else Start(c, i) + 2 * c.max + 1
  {
    if i >= 2 {
      StartAdvances(c, i - 2);
    }
  }

  lemma {:induction false} StraddlingForgetsPromptly(c: Config, n: nat, i: nat)
    requires i + 1 < n
    ensures 0 <= Straddling(c, n)[i + 1].forgetAt - Straddling(c, n)[i].retryAt <= 2 * c.max
  {
    if i + 2 < n {
      StraddlingForgetsPromptly(c, n - 1, i);
    } else {
      StartAdvances(c, i);
      assert Straddling(c, n)[i] == Straddling(c, n - 1)[i];
    }
  }

  /** A prompt `Forget` alone does not bound the retries: a stale `When` answers
  without recording the attempt, so the next `Forget` clears the count. */
  lemma {:induction false} PromptForgetIsNotEnough(c: Config, maxRetries: nat, k: Key, n: nat)
    requires maxRetries >= 2
    ensures
      var f := FailRepeatedly(map[], c, maxRetries, k, Straddling(c, n));
      && f.Requeued? && Attempts(f.table, k) == (if n > 0 then 1 else 0)
      && (n > 0 ==> k in f.table && f.table[k].last == Start(c, n - 1))
  {
    if n == 0 {
    } else {
      assert Straddling(c, n)[..n - 1] == Straddling(c, n - 1);
      PromptForgetIsNotEnough(c, maxRetries, k, n - 1);
      if n > 1 {
        StartAdvances(c, n - 2);
      }
    }
  }

  // ----- a limiter whose Forget always clears -----------------------------

  /** The builder's default limiter counts per item and clears on every
  `Forget`; the worker calls `Forget` before it looks at the count. */
  function ClearAndFail(f: map<Key, nat>, maxRetries: nat, k: Key): Option<map<Key, nat>> {
    var g := f - {k};
    var n := CountOf(g, k);
    if n >= maxRetries then None else Some(g[k := n + 1])
  }

  function CountOf(f: map<Key, nat>, k: Key): nat {
    if k in f then f[k] else 0
  }

  function ClearAndFailRepeatedly(f: map<Key, nat>, maxRetries: nat, k: Key, rounds: nat): Option<map<Key, nat>> {
    if rounds == 0 then Some(f)
    else
      var g := ClearAndFailRepeatedly(f, maxRetries, k, rounds - 1);
      if g.None? then None else ClearAndFail(g.value, maxRetries, k)
  }

  /** With such a limiter the retry limit has no effect unless it is zero: an
  always failing event is requeued for ever, and its count never passes one,
  so its delay never grows either. */
  lemma {:induction false} ClearingLimiterNeverDrops(f: map<Key, nat>, maxRetries: nat, k: Key, rounds: nat)
    requires rounds > 0
    ensures
      var g := ClearAndFailRepeatedly(f, maxRetries, k, rounds);
      && (g.Some? <==> maxRetries > 0)
      && (g.Some? ==> k in g.value && g.value[k] == 1)
  {
    if rounds > 1 {
      ClearingLimiterNeverDrops(f, maxRetries, k, rounds - 1);
    }
  }
}
