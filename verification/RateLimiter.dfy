/** Strikes against keys, counted while they are recent. The limiter drops those that have aged and
    still answers as if it had kept them all. */
module RateLimiter {

  type Log = seq<int>

  const SWEEP_ABOVE: nat := 4096

  /** The strikes of a log after `start`. */
  function Recent(log: Log, start: int): Log {
    if log == [] then []
    else (if log[0] > start then [log[0]] else []) + Recent(log[1..], start)
  }

  /** Where the window begins, the clock counted from its origin: it cannot begin before that. */
  function Start(window: nat, now: int): int {
    if now >= window then now - window else now
  }

  datatype Answer = Proceed | Wait(time: int) | Panic

  function Answered(log: Log, max: nat, window: nat, now: int): Answer {
    var recent := Recent(log, Start(window, now));
    if |recent| < max then Proceed
    else if recent == [] then Panic
    else Wait(recent[0] + window - now)
  }

  type Strikes = map<string, Log>

  function LogOf(strikes: Strikes, key: string): Log {
    if key in strikes then strikes[key] else []
  }

  function CheckAt(strikes: Strikes, key: string, max: nat, window: nat, now: int): Answer {
    if key in strikes then Answered(strikes[key], max, window, now) else Proceed
  }

  /** The log without the strikes in front that are out of the window. */
  function Evicted(log: Log, start: int): Log {
    if log != [] && log[0] <= start then Evicted(log[1..], start) else log
  }

  predicate AnyRecent(log: Log, start: int) {
    exists i :: 0 <= i < |log| && log[i] > start
  }

  function Swept(strikes: Strikes, start: int): Strikes {
    if |strikes| > SWEEP_ABOVE then map k | k in strikes && AnyRecent(strikes[k], start) :: strikes[k] else strikes
  }

  function StrikeAt(strikes: Strikes, key: string, window: nat, now: int): Strikes {
    var start := Start(window, now);
    var swept := Swept(strikes, start);
    swept[key := Evicted(LogOf(swept, key), start) + [now]]
  }

  class Limiter {
    const max: nat
    const window: nat
    var strikes: Strikes

    constructor (max: nat, window: nat)
      ensures this.max == max && this.window == window && strikes == map[]
    {
      this.max, this.window, strikes := max, window, map[];
    }

    /** Lets `key` through, or names the time left to wait. */
    method Check(key: string, now: int) returns (a: Answer)
      ensures a == CheckAt(strikes, key, max, window, now)
    {
      if key !in strikes {
        return Proceed;
      }
      var recent := Recent(strikes[key], Start(window, now));
      if |recent| < max {
        return Proceed;
      }
      if recent == [] {
        return Panic;
      }
      return Wait(recent[0] + window - now);
    }

    /** Notes a strike, sweeping every key without a recent strike when there are
        too many, and evicting the strikes of this one that are out of the window. */
    method Strike(key: string, now: int)
      modifies this`strikes
      ensures strikes == StrikeAt(old(strikes), key, window, now)
    {
      var start := Start(window, now);
      if |strikes| > SWEEP_ABOVE {
        strikes := map k | k in strikes && AnyRecent(strikes[k], start) :: strikes[k];
      }
      var log := LogOf(strikes, key);
      ghost var whole := log;
      while log != [] && log[0] <= start
        invariant Evicted(log, start) == Evicted(whole, start)
        decreases |log|
      {
        log := log[1..];
      }
      strikes := strikes[key := log + [now]];
    }

    method Clear(key: string)
      modifies this`strikes
      ensures strikes == old(strikes) - {key}
    {
      strikes := strikes - {key};
    }
  }

  // ---- what is forgotten does not matter ----

  lemma {:induction false} RecentOfRecent(log: Log, a: int, b: int)
    requires a <= b
    ensures Recent(Recent(log, a), b) == Recent(log, b)
  {
    if log != [] {
      RecentOfRecent(log[1..], a, b);
      var rest := Recent(log[1..], a);
      if log[0] > a {
        assert ([log[0]] + rest)[1..] == rest;
      } else {
        assert [] + rest == rest && [] + Recent(log[1..], b) == Recent(log[1..], b);
      }
    }
  }

  lemma {:induction false} RecentOfMore(log: Log, more: Log, start: int)
    ensures Recent(log + more, start) == Recent(log, start) + Recent(more, start)
  {
    if log == [] {
      assert log + more == more;
    } else {
      assert (log + more)[1..] == log[1..] + more;
      RecentOfMore(log[1..], more, start);
    }
  }

  lemma {:induction false} RecentOfEvicted(log: Log, start: int)
    ensures Recent(Evicted(log, start), start) == Recent(log, start)
  {
    if log != [] && log[0] <= start {
      RecentOfEvicted(log[1..], start);
    }
  }

  lemma {:induction false} NoneRecent(log: Log, start: int)
    requires !AnyRecent(log, start)
    ensures Recent(log, start) == []
  {
    if log != [] {
      assert log[0] <= start;
      forall i | 0 <= i < |log[1..]| ensures log[1..][i] <= start {
        assert log[1..][i] == log[i + 1];
      }
      NoneRecent(log[1..], start);
    }
  }

  /** The limiter and the full history agree on every strike in the window. */
  ghost predicate Agrees(pruned: Strikes, full: Strikes, start: int) {
    forall key :: Recent(LogOf(pruned, key), start) == Recent(LogOf(full, key), start)
  }

  lemma AgreesLater(pruned: Strikes, full: Strikes, a: int, b: int)
    requires a <= b && Agrees(pruned, full, a)
    ensures Agrees(pruned, full, b)
  {
    forall key ensures Recent(LogOf(pruned, key), b) == Recent(LogOf(full, key), b) {
      RecentOfRecent(LogOf(pruned, key), a, b);
      RecentOfRecent(LogOf(full, key), a, b);
    }
  }

  /** A strike kept forever. */
  function FullStrike(full: Strikes, key: string, now: int): Strikes {
    full[key := LogOf(full, key) + [now]]
  }

  lemma StrikeAgrees(pruned: Strikes, full: Strikes, key: string, window: nat, now: int)
    requires Agrees(pruned, full, Start(window, now))
    ensures Agrees(StrikeAt(pruned, key, window, now), FullStrike(full, key, now), Start(window, now))
  {
    var start := Start(window, now);
    var swept := Swept(pruned, start);
    forall k ensures Recent(LogOf(swept, k), start) == Recent(LogOf(full, k), start) {
      if k in pruned && k !in swept {
        NoneRecent(pruned[k], start);
      }
    }
    forall k
      ensures Recent(LogOf(StrikeAt(pruned, key, window, now), k), start) == Recent(LogOf(FullStrike(full, key, now), k), start)
    {
      if k == key {
        RecentOfEvicted(LogOf(swept, key), start);
        RecentOfMore(Evicted(LogOf(swept, key), start), [now], start);
        RecentOfMore(LogOf(full, key), [now], start);
        assert Recent(LogOf(swept, key), start) == Recent(LogOf(full, key), start);
      } else {
        assert LogOf(StrikeAt(pruned, key, window, now), k) == LogOf(swept, k);
        assert LogOf(FullStrike(full, key, now), k) == LogOf(full, k);
      }
    }
  }

  datatype Op = Checking(key: string, now: int) | Striking(key: string, now: int) | Clearing(key: string, now: int)

  /** The answers the limiter gives along a run. */
  function Answers(strikes: Strikes, max: nat, window: nat, ops: seq<Op>): seq<Answer>
    decreases |ops|
  {
    if ops == [] then []
    else match ops[0]
      case Checking(key, now) => [CheckAt(strikes, key, max, window, now)] + Answers(strikes, max, window, ops[1..])
      case Striking(key, now) => Answers(StrikeAt(strikes, key, window, now), max, window, ops[1..])
      case Clearing(key, now) => Answers(strikes - {key}, max, window, ops[1..])
  }

  /** The answers the full history would give. */
  function FullAnswers(full: Strikes, max: nat, window: nat, ops: seq<Op>): seq<Answer>
    decreases |ops|
  {
    if ops == [] then []
    else match ops[0]
      case Checking(key, now) => [CheckAt(full, key, max, window, now)] + FullAnswers(full, max, window, ops[1..])
      case Striking(key, now) => FullAnswers(FullStrike(full, key, now), max, window, ops[1..])
      case Clearing(key, now) => FullAnswers(full - {key}, max, window, ops[1..])
  }

  /** A clock that does not run backwards, from `since` on. */
  predicate Timely(ops: seq<Op>, since: int) {
    forall i :: 0 <= i < |ops| ==> ops[i].now >= since && forall j :: i <= j < |ops| ==> ops[i].now <= ops[j].now
  }

  lemma TimelyRest(ops: seq<Op>, since: int)
    requires ops != [] && Timely(ops, since)
    ensures ops[0].now >= since && Timely(ops[1..], ops[0].now)
  {
    forall i | 0 <= i < |ops[1..]|
      ensures ops[1..][i].now >= ops[0].now && forall j :: i <= j < |ops[1..]| ==> ops[1..][i].now <= ops[1..][j].now
    {
      assert ops[1..][i] == ops[i + 1];
      forall j | i <= j < |ops[1..]| ensures ops[1..][i].now <= ops[1..][j].now {
        assert ops[1..][j] == ops[j + 1];
      }
    }
  }

  lemma CheckAgrees(pruned: Strikes, full: Strikes, key: string, max: nat, window: nat, now: int)
    requires max >= 1 && Agrees(pruned, full, Start(window, now))
    ensures CheckAt(pruned, key, max, window, now) == CheckAt(full, key, max, window, now)
  {
    assert Recent(LogOf(pruned, key), Start(window, now)) == Recent(LogOf(full, key), Start(window, now));
  }

  lemma ClearAgrees(pruned: Strikes, full: Strikes, key: string, start: int)
    requires Agrees(pruned, full, start)
    ensures Agrees(pruned - {key}, full - {key}, start)
  {
    forall k ensures Recent(LogOf(pruned - {key}, k), start) == Recent(LogOf(full - {key}, k), start) {
      assert Recent(LogOf(pruned, k), start) == Recent(LogOf(full, k), start);
    }
  }

  lemma {:induction false} PrunedAgreesFrom(pruned: Strikes, full: Strikes, max: nat, window: nat, ops: seq<Op>, since: int)
    requires max >= 1 && since >= window && Timely(ops, since)
    requires Agrees(pruned, full, since - window)
    ensures Answers(pruned, max, window, ops) == FullAnswers(full, max, window, ops)
    decreases |ops|
  {
    if ops != [] {
      var now := ops[0].now;
      TimelyRest(ops, since);
      AgreesLater(pruned, full, since - window, now - window);
      match ops[0] {
        case Checking(key, _) =>
          CheckAgrees(pruned, full, key, max, window, now);
          PrunedAgreesFrom(pruned, full, max, window, ops[1..], now);
        case Striking(key, _) =>
          StrikeAgrees(pruned, full, key, window, now);
          PrunedAgreesFrom(StrikeAt(pruned, key, window, now), FullStrike(full, key, now), max, window, ops[1..], now);
        case Clearing(key, _) =>
          ClearAgrees(pruned, full, key, now - window);
          PrunedAgreesFrom(pruned - {key}, full - {key}, max, window, ops[1..], now);
      }
    }
  }

  /** Eviction and the sweep never change a later answer, over any run of checks, strikes and
      clearings, once the clock is a window past its origin and at least one strike is allowed. */
  lemma PrunedRefinesFull(max: nat, window: nat, ops: seq<Op>)
    requires max >= 1 && Timely(ops, window)
    ensures Answers(map[], max, window, ops) == FullAnswers(map[], max, window, ops)
  {
    PrunedAgreesFrom(map[], map[], max, window, ops, window);
  }

  /** Within a window of the origin it is not so: the window then begins now, and earlier strikes
      are forgotten that would still count later. */
  lemma EarlyStrikesForgotten()
    ensures Timely(EARLY, 0)
    ensures Answers(map[], 2, 60, EARLY) == [Proceed]
    ensures FullAnswers(map[], 2, 60, EARLY) == [Wait(3)]
  {
    EarlyPruned();
    EarlyFull();
  }

  const LATER := [Checking("a", 62)]
  const EARLY := [Striking("a", 5), Striking("a", 6), Checking("a", 62)]

  lemma EarlyOps()
    ensures EARLY[1..][1..] == LATER && EARLY[0] == Striking("a", 5) && EARLY[1..][0] == Striking("a", 6)
    ensures LATER[1..] == []
  {
  }

  lemma EarlyPruned()
    ensures Answers(map[], 2, 60, EARLY) == [Proceed]
  {
    var none: Strikes := map[];
    EarlyOps();
    EarlyStrike(none, 5);
    EarlyStrike(StrikeAt(none, "a", 60, 5), 6);
    var t := StrikeAt(StrikeAt(none, "a", 60, 5), "a", 60, 6);
    assert t["a"] == [6] && Recent([6], 2) == [6];
    assert Answers(t, 2, 60, LATER) == [Proceed];
  }

  lemma EarlyFull()
    ensures FullAnswers(map[], 2, 60, EARLY) == [Wait(3)]
  {
    var none: Strikes := map[];
    EarlyOps();
    var t := FullStrike(FullStrike(none, "a", 5), "a", 6);
    assert t["a"] == [] + [5] + [6] == [5, 6];
    assert [5, 6][1..] == [6] && Recent([6], 2) == [6] && Recent([5, 6], 2) == [5, 6];
    assert FullAnswers(t, 2, 60, LATER) == [Wait(3)];
  }

  /** A strike within a window of the origin is all that is left of its key. */
  lemma EarlyStrike(strikes: Strikes, now: int)
    requires |strikes| <= 1 && now < 60 && forall i :: 0 <= i < |LogOf(strikes, "a")| ==> LogOf(strikes, "a")[i] <= now
    requires strikes.Keys <= {"a"}
    ensures StrikeAt(strikes, "a", 60, now) == strikes["a" := [now]]
    ensures |StrikeAt(strikes, "a", 60, now)| <= 1 && StrikeAt(strikes, "a", 60, now).Keys == {"a"}
  {
    AllEvicted(LogOf(strikes, "a"), now);
    assert [] + [now] == [now];
    assert strikes["a" := [now]].Keys == {"a"};
    assert |strikes["a" := [now]]| == |strikes["a" := [now]].Keys|;
  }

  // ---- how long a refusal lasts ----

  /** A log as a clock that does not run backwards leaves it. */
  predicate Ordered(log: Log, now: int) {
    (forall i :: 0 <= i < |log| ==> log[i] <= now) && forall i, j :: 0 <= i < j < |log| ==> log[i] <= log[j]
  }

  lemma {:induction false} RecentIsOrdered(log: Log, now: int, start: int)
    requires Ordered(log, now)
    ensures Ordered(Recent(log, start), now)
    ensures forall i :: 0 <= i < |Recent(log, start)| ==> Recent(log, start)[i] > start && Recent(log, start)[i] in log
  {
    if log != [] {
      assert forall i :: 0 <= i < |log[1..]| ==> log[1..][i] == log[i + 1];
      RecentIsOrdered(log[1..], now, start);
    }
  }

  ghost predicate AllOrdered(strikes: Strikes, now: int) {
    forall key :: key in strikes ==> Ordered(strikes[key], now)
  }

  /** Strikes at times that do not run backwards keep every log in order. */
  lemma StrikeKeepsOrder(strikes: Strikes, key: string, window: nat, before: int, now: int)
    requires AllOrdered(strikes, before) && before <= now
    ensures AllOrdered(StrikeAt(strikes, key, window, now), now)
  {
    var start := Start(window, now);
    EvictedIsOrdered(LogOf(Swept(strikes, start), key), now, start);
  }

  lemma {:induction false} EvictedIsOrdered(log: Log, now: int, start: int)
    requires Ordered(log, now)
    ensures Ordered(Evicted(log, start), now)
  {
    if log != [] && log[0] <= start {
      EvictedIsOrdered(log[1..], now, start);
    }
  }

  lemma {:induction false} RecentAll(log: Log, start: int)
    requires forall i :: 0 <= i < |log| ==> log[i] > start
    ensures Recent(log, start) == log
  {
    if log != [] {
      assert forall i :: 0 <= i < |log[1..]| ==> log[1..][i] == log[i + 1];
      RecentAll(log[1..], start);
    }
  }

  lemma WaitIs(log: Log, max: nat, window: nat, now: int)
    requires now >= window && Ordered(log, now) && Answered(log, max, window, now).Wait?
    ensures var recent := Recent(log, now - window);
            && recent != [] && |recent| >= max && Ordered(recent, now)
            && (forall i :: 0 <= i < |recent| ==> recent[i] > now - window)
            && Answered(log, max, window, now).time == recent[0] + window - now > 0
  {
    RecentIsOrdered(log, now, now - window);
  }

  /** Without further strikes a refused key stays refused for as long as it was told to wait. */
  lemma WaitIsALowerBound(log: Log, max: nat, window: nat, now: int, t: int)
    requires now >= window && Ordered(log, now) && Answered(log, max, window, now).Wait?
    requires now <= t < now + Answered(log, max, window, now).time
    ensures Answered(log, max, window, t).Wait?
  {
    var recent := Recent(log, now - window);
    WaitIs(log, max, window, now);
    RecentOfRecent(log, now - window, t - window);
    RecentAll(recent, t - window);
  }

  /** Then it may proceed exactly when fewer than `max` strikes are later than the oldest that
      counted. */
  lemma WaitEnds(log: Log, max: nat, window: nat, now: int)
    requires now >= window && Ordered(log, now) && Answered(log, max, window, now).Wait?
    ensures var t := now + Answered(log, max, window, now).time;
            Answered(log, max, window, t).Proceed? <==> |Recent(log, Recent(log, now - window)[0])| < max
  {
    WaitIs(log, max, window, now);
  }

  /** With precisely `max` recent strikes that is so. */
  lemma WaitIsExact(log: Log, max: nat, window: nat, now: int)
    requires now >= window && Ordered(log, now) && Answered(log, max, window, now).Wait?
    requires |Recent(log, now - window)| == max
    ensures Answered(log, max, window, now + Answered(log, max, window, now).time).Proceed?
  {
    var recent := Recent(log, now - window);
    WaitIs(log, max, window, now);
    WaitEnds(log, max, window, now);
    RecentOfRecent(log, now - window, recent[0]);
    assert recent == [recent[0]] + recent[1..];
    RecentOfMore([recent[0]], recent[1..], recent[0]);
    RecentShorter(recent[1..], recent[0]);
  }

  lemma {:induction false} RecentShorter(log: Log, start: int)
    ensures |Recent(log, start)| <= |log|
  {
    if log != [] {
      RecentShorter(log[1..], start);
    }
  }

  // ---- what a strike forgets ----

  function Struck(log: Log, window: nat, now: int): Log {
    Evicted(log, Start(window, now)) + [now]
  }

  /** Whether leaving out what a strike evicts changes the answer at some later time. */
  ghost predicate Forgets(log: Log, max: nat, window: nat, now: int) {
    exists t :: now <= t && Answered(Struck(log, window, now), max, window, t) != Answered(log + [now], max, window, t)
  }

  /** Whether a strike within a window of the origin finds strikes that would count together with it. */
  predicate TooEarly(log: Log, max: nat, window: nat, now: int) {
    var counted := Recent(log, 0);
    now < window && counted != [] && |counted| + 1 >= max && (max >= 2 || counted[0] < now)
  }

  /** A strike forgets something that matters exactly when it comes too early. */
  lemma ForgetsExactly(log: Log, max: nat, window: nat, now: int)
    requires max >= 1 && Ordered(log, now)
    ensures Forgets(log, max, window, now) <==> TooEarly(log, max, window, now)
  {
    if TooEarly(log, max, window, now) {
      ForgottenAt(log, max, window, now);
    }
    forall t | now <= t && !TooEarly(log, max, window, now)
      ensures Answered(Struck(log, window, now), max, window, t) == Answered(log + [now], max, window, t)
    {
      if now >= window {
        RememberedLater(log, window, now, t);
      } else {
        SameEarly(log, max, window, now, t);
      }
    }
  }

  lemma {:induction false} AllEvicted(log: Log, start: int)
    requires forall i :: 0 <= i < |log| ==> log[i] <= start
    ensures Evicted(log, start) == [] && Recent(log, start) == []
  {
    if log != [] {
      assert forall i :: 0 <= i < |log[1..]| ==> log[1..][i] == log[i + 1];
      AllEvicted(log[1..], start);
    }
  }

  lemma ForgottenAt(log: Log, max: nat, window: nat, now: int)
    requires max >= 1 && Ordered(log, now) && TooEarly(log, max, window, now)
    ensures Forgets(log, max, window, now)
  {
    var counted := Recent(log, 0);
    AllEvicted(log, now);
    RecentIsOrdered(log, now, 0);
    RecentOfMore(log, [now], 0);
    assert [] + [now] == [now];
    assert Recent([now], 0) == [now] && Recent(log + [now], 0) == counted + [now];
    assert Answered([now], max, window, window) != Answered(log + [now], max, window, window);
  }

  lemma RememberedLater(log: Log, window: nat, now: int, t: int)
    requires window <= now <= t
    ensures Recent(Struck(log, window, now), Start(window, t)) == Recent(log + [now], Start(window, t))
  {
    var start, later := now - window, t - window;
    RecentOfMore(Evicted(log, start), [now], later);
    RecentOfMore(log, [now], later);
    RecentOfRecent(Evicted(log, start), start, later);
    RecentOfEvicted(log, start);
    RecentOfRecent(log, start, later);
  }

  lemma SameEarly(log: Log, max: nat, window: nat, now: int, t: int)
    requires max >= 1 && Ordered(log, now) && now < window && now <= t && !TooEarly(log, max, window, now)
    ensures Answered(Struck(log, window, now), max, window, t) == Answered(log + [now], max, window, t)
  {
    AllEvicted(log, now);
    assert [] + [now] == [now];
    if t < window {
      AllEvicted(log + [now], t);
      AllEvicted([now], t);
    } else {
      var start := t - window;
      RecentOfMore(log, [now], start);
      if Recent(log, start) == [] {
        assert [] + Recent([now], start) == Recent([now], start);
      } else {
        TooFewToMatter(log, max, window, now, start);
      }
    }
  }

  /** A strike whose evicted ones would count changes nothing where all together are too few, or the
      only one that matters is as old as itself. */
  lemma TooFewToMatter(log: Log, max: nat, window: nat, now: int, start: int)
    requires max >= 1 && Ordered(log, now) && start >= 0 && Recent(log, start) != []
    requires now < window && !TooEarly(log, max, window, now)
    ensures Recent([now], start) == [now]
    ensures |Recent(log, start)| + 1 < max || (max == 1 && Recent(log, start)[0] == now)
  {
    FirstIsOldest(log, now, start);
    RecentOfRecent(log, 0, start);
    RecentShorter(Recent(log, 0), start);
  }

  /** A later window's oldest strike is no older, and comes before the one just counted. */
  lemma FirstIsOldest(log: Log, now: int, start: int)
    requires Ordered(log, now) && start >= 0 && Recent(log, start) != []
    ensures Recent(log, 0) != [] && Recent(log, 0)[0] <= Recent(log, start)[0] <= now && now > start
  {
    RecentOfRecent(log, 0, start);
    RecentIsOrdered(log, now, 0);
    RecentIsOrdered(log, now, start);
    RecentIsOrdered(Recent(log, 0), now, start);
  }

  // ---- the limiter over a whole run, by counting ----

  /** A strike of the run against `key`, not forgiven since, and later than `start`. */
  ghost predicate Counts(ops: seq<Op>, key: string, start: int, i: nat) {
    && i < |ops| && ops[i].Striking? && ops[i].key == key && ops[i].now > start
    && forall j :: i < j < |ops| ==> !(ops[j].Clearing? && ops[j].key == key)
  }

  ghost function Counted(ops: seq<Op>, key: string, start: int): set<nat> {
    set i: nat | i < |ops| && Counts(ops, key, start, i)
  }

  /** The full history after a run. */
  function FullAfter(full: Strikes, op: Op): Strikes {
    match op
    case Checking(_, _) => full
    case Striking(key, now) => FullStrike(full, key, now)
    case Clearing(key, _) => full - {key}
  }

  function FullAfterAll(ops: seq<Op>): Strikes {
    if ops == [] then map[] else FullAfter(FullAfterAll(ops[..|ops| - 1]), ops[|ops| - 1])
  }

  lemma CountsEarlier(ops: seq<Op>, key: string, start: int)
    requires ops != []
    ensures var n := |ops| - 1;
            var earlier := if ops[n].Clearing? && ops[n].key == key then {} else Counted(ops[..n], key, start);
            Counted(ops, key, start) == earlier + (if Counts(ops, key, start, n) then {n} else {})
  {
    var n := |ops| - 1;
    var clears := ops[n].Clearing? && ops[n].key == key;
    forall i: nat | i < n ensures Counts(ops, key, start, i) <==> !clears && Counts(ops[..n], key, start, i) {
      if !clears && Counts(ops[..n], key, start, i) {
        forall j | i < j < |ops| ensures !(ops[j].Clearing? && ops[j].key == key) {
          assert j < n ==> ops[..n][j] == ops[j];
        }
      }
    }
  }

  ghost predicate Least(s: set<nat>, i: nat) {
    i in s && forall j :: j in s ==> i <= j
  }

  /** The first strike counted came at `time`. */
  ghost predicate FirstCountedAt(ops: seq<Op>, key: string, start: int, time: int) {
    exists i: nat :: Least(Counted(ops, key, start), i) && ops[i].now == time
  }

  /** The strikes of a log in a window are the strikes counted, the first counted first. */
  ghost predicate LogCounts(log: Log, ops: seq<Op>, key: string, start: int) {
    && |Recent(log, start)| == |Counted(ops, key, start)|
    && (Recent(log, start) != [] ==> FirstCountedAt(ops, key, start, Recent(log, start)[0]))
  }

  lemma {:induction false} RecentAreCounted(ops: seq<Op>, key: string, start: int)
    ensures LogCounts(LogOf(FullAfterAll(ops), key), ops, key, start)
    decreases |ops|
  {
    if ops == [] {
      assert Counted(ops, key, start) == {};
    } else {
      RecentAreCounted(ops[..|ops| - 1], key, start);
      OneMoreCounted(LogOf(FullAfterAll(ops[..|ops| - 1]), key), ops, key, start);
      LogAfter(FullAfterAll(ops[..|ops| - 1]), ops[|ops| - 1], key);
    }
  }

  /** What an operation makes of the log of `key`. */
  function LogThen(log: Log, op: Op, key: string): Log {
    if op.key != key || op.Checking? then log else if op.Striking? then log + [op.now] else []
  }

  lemma LogAfter(full: Strikes, op: Op, key: string)
    ensures LogOf(FullAfter(full, op), key) == LogThen(LogOf(full, key), op, key)
  {
  }

  lemma OneMoreCounted(log: Log, ops: seq<Op>, key: string, start: int)
    requires ops != [] && LogCounts(log, ops[..|ops| - 1], key, start)
    ensures LogCounts(LogThen(log, ops[|ops| - 1], key), ops, key, start)
  {
    var n := |ops| - 1;
    CountsEarlier(ops, key, start);
    if ops[n].key == key && ops[n].Striking? {
      StruckCounts(log, ops, key, start);
    } else if ops[n].key == key && ops[n].Clearing? {
      assert Counted(ops, key, start) == {};
    } else {
      assert Counted(ops, key, start) == Counted(ops[..n], key, start);
      if Recent(log, start) != [] {
        FirstKept(ops, key, start, Recent(log, start)[0]);
      }
    }
  }

  lemma StruckCounts(log: Log, ops: seq<Op>, key: string, start: int)
    requires ops != [] && ops[|ops| - 1].Striking? && ops[|ops| - 1].key == key
    requires LogCounts(log, ops[..|ops| - 1], key, start)
    ensures LogCounts(log + [ops[|ops| - 1].now], ops, key, start)
  {
    var n := |ops| - 1;
    var counted := Counted(ops[..n], key, start);
    CountsEarlier(ops, key, start);
    RecentOfMore(log, [ops[n].now], start);
    assert n !in counted;
    if Recent(log, start) != [] {
      FirstKept(ops, key, start, Recent(log, start)[0]);
    } else if ops[n].now > start {
      assert counted == {} && Counts(ops, key, start, n);
      assert Least(Counted(ops, key, start), n);
    }
  }

  lemma FirstKept(ops: seq<Op>, key: string, start: int, time: int)
    requires ops != [] && FirstCountedAt(ops[..|ops| - 1], key, start, time)
    requires Counted(ops[..|ops| - 1], key, start) <= Counted(ops, key, start)
    requires Counted(ops, key, start) <= Counted(ops[..|ops| - 1], key, start) + {|ops| - 1}
    ensures FirstCountedAt(ops, key, start, time)
  {
    var i: nat :| Least(Counted(ops[..|ops| - 1], key, start), i) && ops[..|ops| - 1][i].now == time;
    assert Least(Counted(ops, key, start), i) && ops[i].now == time;
  }

  lemma {:induction false} AnswersEnd(full: Strikes, max: nat, window: nat, ops: seq<Op>, key: string, now: int)
    ensures var answers := FullAnswers(full, max, window, ops + [Checking(key, now)]);
            && answers != []
            && answers[|answers| - 1] == CheckAt(AfterFrom(full, ops), key, max, window, now)
    decreases |ops|
  {
    var all := ops + [Checking(key, now)];
    if ops == [] {
      assert all == [Checking(key, now)] && all[1..] == [];
    } else {
      assert all[0] == ops[0] && all[1..] == ops[1..] + [Checking(key, now)];
      AnswersEnd(FullAfter(full, ops[0]), max, window, ops[1..], key, now);
    }
  }

  function AfterFrom(full: Strikes, ops: seq<Op>): Strikes
    decreases |ops|
  {
    if ops == [] then full else AfterFrom(FullAfter(full, ops[0]), ops[1..])
  }

  lemma {:induction false} AfterFromEnd(full: Strikes, ops: seq<Op>)
    requires ops != []
    ensures AfterFrom(full, ops) == FullAfter(AfterFrom(full, ops[..|ops| - 1]), ops[|ops| - 1])
    decreases |ops|
  {
    if |ops| > 1 {
      AfterFromEnd(FullAfter(full, ops[0]), ops[1..]);
      assert ops[1..][..|ops| - 2] == ops[..|ops| - 1][1..];
    } else {
      assert ops[1..] == [];
    }
  }

  lemma {:induction false} AfterAllIsFrom(ops: seq<Op>)
    ensures FullAfterAll(ops) == AfterFrom(map[], ops)
    decreases |ops|
  {
    if ops != [] {
      AfterAllIsFrom(ops[..|ops| - 1]);
      AfterFromEnd(map[], ops);
    }
  }

  /** What the limiter answers at the end of any run: a key may proceed exactly when fewer than `max`
      strikes against it, not cleared since, are within the window; if not, it waits until the
      first of them leaves the window. */
  lemma LetThroughExactly(max: nat, window: nat, ops: seq<Op>, key: string, now: int)
    requires max >= 1 && Timely(ops + [Checking(key, now)], window)
    ensures var answers := Answers(map[], max, window, ops + [Checking(key, now)]);
            && answers != []
            && var a := answers[|answers| - 1];
               if |Counted(ops, key, now - window)| < max then a == Proceed
               else a.Wait? && FirstCountedAt(ops, key, now - window, a.time - window + now)
  {
    assert (ops + [Checking(key, now)])[|ops|].now == now;
    PrunedRefinesFull(max, window, ops + [Checking(key, now)]);
    AnswersEnd(map[], max, window, ops, key, now);
    AfterAllIsFrom(ops);
    RecentAreCounted(ops, key, now - window);
    CountedAnswer(FullAfterAll(ops), max, window, ops, key, now);
  }

  lemma CountedAnswer(full: Strikes, max: nat, window: nat, ops: seq<Op>, key: string, now: int)
    requires max >= 1 && now >= window && LogCounts(LogOf(full, key), ops, key, now - window)
    ensures var a := CheckAt(full, key, max, window, now);
            if |Counted(ops, key, now - window)| < max then a == Proceed
            else a.Wait? && FirstCountedAt(ops, key, now - window, a.time - window + now)
  {
  }

  /** A strike drops other keys only when there are too many, and then those without a recent strike. */
  lemma OtherKeys(strikes: Strikes, key: string, window: nat, now: int, other: string)
    requires other != key
    ensures var after := StrikeAt(strikes, key, window, now);
            && (other in after <==>
                  other in strikes && (|strikes| <= 4096 || Recent(strikes[other], Start(window, now)) != []))
            && (other in after ==> after[other] == strikes[other])
  {
    if other in strikes {
      AnyIsRecent(strikes[other], Start(window, now));
    }
  }

  lemma {:induction false} AnyIsRecent(log: Log, start: int)
    ensures AnyRecent(log, start) <==> Recent(log, start) != []
  {
    if log != [] {
      AnyIsRecent(log[1..], start);
      if AnyRecent(log, start) && log[0] <= start {
        var i :| 0 <= i < |log| && log[i] > start;
        assert log[1..][i - 1] == log[i];
      }
      if AnyRecent(log[1..], start) {
        var i :| 0 <= i < |log[1..]| && log[1..][i] > start;
        assert log[i + 1] == log[1..][i];
      }
    }
  }
}
