/**
 * The fixed-window rate limiter: INCR on a key, PEXPIRE by the request that created
 * it, and a refusal once the count passes the limit.
 */
module RateLimit {
  import opened Common

  datatype RateLimitSpec = RateLimitSpec(limit: nat, windowSec: nat)

  function WindowMs(spec: RateLimitSpec): nat {
    spec.windowSec * 1000
  }

  /** A key's counter; without an expiry it lives for ever. */
  datatype Counter = Counter(count: nat, expiresAt: Option<int>)

  datatype Decision = Allowed | RateLimited(retryAfterSec: nat)

  /** How far a request's commands get: all answered, none, or none after the INCR took effect. */
  datatype Redis = Answers | Silent | LostAfterIncr

  predicate Alive(counter: Counter, now: int) {
    counter.expiresAt.None? || now < counter.expiresAt.value
  }

  /** One request against its key once its INCR took effect: the counter it leaves. */
  function Counted(counters: map<string, Counter>, key: string, spec: RateLimitSpec, now: int, expireLost: bool): Counter {
    if key in counters && Alive(counters[key], now)
    then counters[key].(count := counters[key].count + 1)
    else Counter(1, if expireLost then None else Some(now + WindowMs(spec)))
  }

  function CeilDiv(a: nat, b: nat): nat
    requires b > 0
  {
    (a + b - 1) / b
  }

  class RateLimitGuard {
    var counters: map<string, Counter>

    constructor ()
      ensures counters == map[]
    {
      counters := map[];
    }

    /**
     * Count the request and decide. A refusal names the first whole second, and no later
     * one, at which the window has reopened; for a counter that never expires it names
     * the window's length. Any failure of Redis lets the request through.
     */
    method CanActivate(key: string, spec: RateLimitSpec, redis: Redis, now: int) returns (r: Decision)
      requires spec.windowSec > 0
      modifies this
      ensures redis.Silent? ==> counters == old(counters)
      ensures !redis.Silent? ==>
        counters == old(counters)[key :=
          if key in old(counters) && (old(counters)[key].expiresAt.None? || now < old(counters)[key].expiresAt.value)
          then old(counters)[key].(count := old(counters)[key].count + 1)
          else Counter(1, if redis.LostAfterIncr? then None else Some(now + 1_000 * spec.windowSec))]
      ensures !redis.Answers? ==> r.Allowed?
      ensures redis.Answers? ==> (r.Allowed? <==> counters[key].count <= spec.limit)
      ensures r.RateLimited? && counters[key].expiresAt.Some? ==>
        && counters[key].expiresAt.value <= now + r.retryAfterSec * 1000
        && now + (r.retryAfterSec - 1) * 1000 < counters[key].expiresAt.value
      ensures r.RateLimited? && counters[key].expiresAt.None? ==> r.retryAfterSec == spec.windowSec
    {
      if redis.Silent? {
        return Allowed;
      }
      if key in counters && Alive(counters[key], now) {
        counters := counters[key := counters[key].(count := counters[key].count + 1)];
      } else {
        counters := counters[key := Counter(1, None)];
        if redis.Answers? {
          counters := counters[key := Counter(1, Some(now + WindowMs(spec)))];
        }
      }
      if redis.LostAfterIncr? || counters[key].count <= spec.limit {
        return Allowed;
      }
      r := RateLimited(RetryAfterSec(counters[key], spec, now));
    }
  }

  /** The wait reported from PTTL, which is negative for a counter without an expiry. */
  function RetryAfterSec(counter: Counter, spec: RateLimitSpec, now: int): nat {
    var ttlMs := if counter.expiresAt.None? then -1 else counter.expiresAt.value - now;
    if ttlMs <= 0 then spec.windowSec else if CeilDiv(ttlMs, 1000) < 1 then 1 else CeilDiv(ttlMs, 1000)
  }

  // ---- every request trace of one key ----

  /**
   * A request: the instant of its INCR, and, should it be the one that created the
   * counter, how long after that its PEXPIRE arrives; None if it never does.
   */
  datatype Hit = Hit(at: int, expireDelay: Option<nat>)

  ghost predicate InOrder(hits: seq<Hit>) {
    forall i, j :: 0 <= i <= j < |hits| ==> hits[i].at <= hits[j].at
  }

  /** The counter that a request created is gone at an instant. */
  predicate Lapsed(creator: Hit, windowMs: nat, now: int) {
    creator.expireDelay.Some? && now >= creator.at + creator.expireDelay.value + windowMs
  }

  /** The counter after the first n requests: its count, and the request that created it. */
  datatype Live = Live(count: nat, creator: nat)

  function CounterAfter(hits: seq<Hit>, windowMs: nat, n: nat): (c: Live)
    requires 0 < n <= |hits|
    ensures c.creator < n && c.count == n - c.creator
  {
    if n == 1 then Live(1, 0)
    else
      var c := CounterAfter(hits, windowMs, n - 1);
      if Lapsed(hits[c.creator], windowMs, hits[n - 1].at) then Live(1, n - 1) else Live(c.count + 1, c.creator)
  }

  predicate Passes(hits: seq<Hit>, spec: RateLimitSpec, i: nat)
    requires i < |hits|
  {
    CounterAfter(hits, WindowMs(spec), i + 1).count <= spec.limit
  }

  /** How many of the first n requests pass, with their INCR in [from, to). */
  function PassedIn(hits: seq<Hit>, spec: RateLimitSpec, n: nat, from: int, to: int): nat
    requires n <= |hits|
  {
    if n == 0 then 0
    else PassedIn(hits, spec, n - 1, from, to) + if from <= hits[n - 1].at < to && Passes(hits, spec, n - 1) then 1 else 0
  }

  function AtMost(limit: nat, n: nat): nat {
    if n <= limit then n else limit
  }

  /** How many of the first n requests pass against the counter that request s created. */
  function PassedAgainst(hits: seq<Hit>, spec: RateLimitSpec, n: nat, s: nat): nat
    requires n <= |hits|
  {
    if n == 0 then 0
    else
      PassedAgainst(hits, spec, n - 1, s)
      + if CounterAfter(hits, WindowMs(spec), n).creator == s && Passes(hits, spec, n - 1) then 1 else 0
  }

  /** What the guard's counters become over a trace of one key's requests, each run until it ends or is cut off. */
  function GuardAfter(hits: seq<Hit>, key: string, spec: RateLimitSpec, n: nat): map<string, Counter>
    requires n <= |hits|
  {
    if n == 0 then map[]
    else
      var counters := GuardAfter(hits, key, spec, n - 1);
      counters[key := Counted(counters, key, spec, hits[n - 1].at, hits[n - 1].expireDelay.None?)]
  }

  /** Run by run, the guard is the trace model in which PEXPIRE follows at once or is lost. */
  lemma {:induction false} GuardFollowsTrace(hits: seq<Hit>, key: string, spec: RateLimitSpec, n: nat)
    requires 0 < n <= |hits| && forall i :: 0 <= i < |hits| ==> hits[i].expireDelay in {Some(0), None}
    ensures
      var c := CounterAfter(hits, WindowMs(spec), n);
      && key in GuardAfter(hits, key, spec, n)
      && GuardAfter(hits, key, spec, n)[key]
         == Counter(c.count, if hits[c.creator].expireDelay.None? then None else Some(hits[c.creator].at + WindowMs(spec)))
    decreases n
  {
    if n > 1 {
      GuardFollowsTrace(hits, key, spec, n - 1);
    } else {
      assert GuardAfter(hits, key, spec, 0) == map[];
    }
  }

  /** At most `limit` requests pass in one counter's lifetime. */
  lemma {:induction false} LifetimeBound(hits: seq<Hit>, spec: RateLimitSpec, n: nat, s: nat)
    requires n <= |hits|
    ensures PassedAgainst(hits, spec, n, s) <= spec.limit
    ensures PassedAgainst(hits, spec, n, s) <= AtMost(spec.limit, if n > s then n - s else 0)
    decreases n
  {
    if n > 0 {
      LifetimeBound(hits, spec, n - 1, s);
    }
  }

  /** One less, but not below zero. */
  function Pred(n: nat): nat {
    if n == 0 then 0 else n - 1
  }

  /**
   * What may have passed in [from, from + window) by the time of the n-th request, by
   * when its counter was created: before the interval, in which case its creator does
   * not count; or inside it, in which case no later counter is.
   */
  lemma {:induction false} PassedSoFar(hits: seq<Hit>, spec: RateLimitSpec, n: nat, from: int)
    requires InOrder(hits) && 0 < n <= |hits|
    ensures
      var to := from + WindowMs(spec);
      var c := CounterAfter(hits, WindowMs(spec), n);
      var passed := PassedIn(hits, spec, n, from, to);
      && (hits[c.creator].at < from ==> passed <= Pred(AtMost(spec.limit, c.count)))
      && (from <= hits[c.creator].at < to ==> passed <= Pred(spec.limit) + AtMost(spec.limit, c.count))
      && (hits[n - 1].at < from ==> passed == 0)
      && passed <= Pred(spec.limit) + spec.limit
    decreases n
  {
    if n > 1 {
      PassedSoFar(hits, spec, n - 1, from);
      var c, c' := CounterAfter(hits, WindowMs(spec), n - 1), CounterAfter(hits, WindowMs(spec), n);
      assert hits[c.creator].at <= hits[n - 1].at;
      if c'.creator == n - 1 {
        assert Lapsed(hits[c.creator], WindowMs(spec), hits[n - 1].at);
      }
    }
  }

  /** In every request trace at most 2·limit - 1 requests pass in any interval of one window's length. */
  lemma SlidingBound(hits: seq<Hit>, spec: RateLimitSpec, from: int)
    requires InOrder(hits)
    ensures PassedIn(hits, spec, |hits|, from, from + 1_000 * spec.windowSec) <= if spec.limit == 0 then 0 else 2 * spec.limit - 1
  {
    if |hits| > 0 {
      PassedSoFar(hits, spec, |hits|, from);
    }
  }

  // ---- the bound is met ----

  /** One request opens a window, limit - 1 follow at its last instant, limit more open the next. */
  function Burst(spec: RateLimitSpec): (hits: seq<Hit>)
    requires spec.limit > 0 && spec.windowSec > 0
    ensures |hits| == 2 * spec.limit
    ensures forall i :: 0 <= i < |hits| ==> hits[i].at == BurstAt(spec, i)
    ensures InOrder(hits)
  {
    seq(2 * spec.limit, i requires 0 <= i => Hit(BurstAt(spec, i), Some(0)))
  }

  function BurstAt(spec: RateLimitSpec, i: nat): int {
    if i == 0 then 0 else if i < spec.limit then WindowMs(spec) - 1 else WindowMs(spec)
  }

  lemma {:induction false} BurstCounts(spec: RateLimitSpec, n: nat)
    requires spec.limit > 0 && spec.windowSec > 0 && 0 < n <= 2 * spec.limit
    ensures CounterAfter(Burst(spec), WindowMs(spec), n) == if n <= spec.limit then Live(n, 0) else Live(n - spec.limit, spec.limit)
    ensures PassedIn(Burst(spec), spec, n, WindowMs(spec) - 1, 2 * WindowMs(spec) - 1) == n - 1
    decreases n
  {
    if n > 1 {
      BurstCounts(spec, n - 1);
    } else {
      assert PassedIn(Burst(spec), spec, 0, WindowMs(spec) - 1, 2 * WindowMs(spec) - 1) == 0;
    }
  }

  /** No smaller bound holds: for every limit some trace passes 2·limit - 1 requests within one window's length. */
  lemma SlidingBoundIsExact(spec: RateLimitSpec) returns (hits: seq<Hit>, from: int)
    requires spec.limit > 0 && spec.windowSec > 0
    ensures InOrder(hits) && PassedIn(hits, spec, |hits|, from, from + 1_000 * spec.windowSec) == 2 * spec.limit - 1
  {
    BurstCounts(spec, 2 * spec.limit);
    hits, from := Burst(spec), WindowMs(spec) - 1;
  }

  /** The creator of a counter whose PEXPIRE never arrives: the window never reopens. */
  lemma {:induction false} NeverReopens(hits: seq<Hit>, spec: RateLimitSpec, s: nat, i: nat)
    requires s <= i < |hits| && hits[s].expireDelay.None?
    requires CounterAfter(hits, WindowMs(spec), s + 1).creator == s
    ensures CounterAfter(hits, WindowMs(spec), i + 1).creator == s
    ensures Passes(hits, spec, i) <==> i - s < spec.limit
    decreases i
  {
    if s < i {
      NeverReopens(hits, spec, s, i - 1);
    }
  }
}
