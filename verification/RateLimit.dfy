/** internal/broker/ratelimit/limiter.go: a fixed-window limiter that evicts lazily. */
module RateLimit {
  const MINUTE: int := 60_000_000_000

  datatype Bucket = Bucket(windowStart: int, count: int)
  datatype Request = Request(now: int, key: string, limit: int)

  predicate Expired(b: Bucket, window: int, now: int) {
    now - b.windowStart >= window
  }

  // ── the reference: a limiter that never forgets a bucket ────────────

  function Next(buckets: map<string, Bucket>, window: int, r: Request): (map<string, Bucket>, bool) {
    if r.limit <= 0 then (buckets, true)
    else if r.key !in buckets || Expired(buckets[r.key], window, r.now) then (buckets[r.key := Bucket(r.now, 1)], true)
    else if buckets[r.key].count >= r.limit then (buckets, false)
    else (buckets[r.key := buckets[r.key].(count := buckets[r.key].count + 1)], true)
  }

  function Live(buckets: map<string, Bucket>, window: int, now: int): map<string, Bucket> {
    map k | k in buckets && !Expired(buckets[k], window, now) :: buckets[k]
  }

  /** What the limiter does: requests without a limit pass untouched, any other first evicts. */
  function LazyNext(buckets: map<string, Bucket>, window: int, r: Request): (map<string, Bucket>, bool) {
    if r.limit <= 0 then (buckets, true) else Next(Live(buckets, window, r.now), window, r)
  }

  class Limiter {
    const window: int
    var buckets: map<string, Bucket>

    constructor (size: int)
      ensures buckets == map[] && window == (if size <= 0 then MINUTE else size) && window > 0
    {
      window := if size <= 0 then MINUTE else size;
      buckets := map[];
    }

    method Allow(now: int, key: string, limit: int) returns (ok: bool)
      modifies this
      ensures (buckets, ok) == LazyNext(old(buckets), window, Request(now, key, limit))
    {
      if limit <= 0 {
        return true;
      }
      EvictExpired(now);
      if key !in buckets || now - buckets[key].windowStart >= window {
        buckets := buckets[key := Bucket(now, 1)];
        return true;
      }
      if buckets[key].count >= limit {
        return false;
      }
      buckets := buckets[key := buckets[key].(count := buckets[key].count + 1)];
      return true;
    }

    method EvictExpired(now: int)
      modifies this
      ensures buckets == Live(old(buckets), window, now)
    {
      var todo := buckets.Keys;
      while todo != {}
        invariant todo <= buckets.Keys
        invariant forall k :: k in old(buckets) && k !in todo ==> (k in buckets <==> !Expired(old(buckets)[k], window, now))
        invariant forall k :: k in buckets ==> k in old(buckets) && buckets[k] == old(buckets)[k]
        decreases |todo|
      {
        var key :| key in todo;
        if now - buckets[key].windowStart >= window {
          buckets := buckets - {key};
        }
        todo := todo - {key};
      }
    }
  }

  // ── traces ──────────────────────────────────────────────────────────

  predicate Monotone(trace: seq<Request>) {
    forall i, j :: 0 <= i < j < |trace| ==> trace[i].now <= trace[j].now
  }

  function Full(window: int, trace: seq<Request>): map<string, Bucket> {
    if |trace| == 0 then map[] else Next(Full(window, trace[..|trace| - 1]), window, trace[|trace| - 1]).0
  }

  function Lazy(window: int, trace: seq<Request>): map<string, Bucket> {
    if |trace| == 0 then map[] else LazyNext(Lazy(window, trace[..|trace| - 1]), window, trace[|trace| - 1]).0
  }

  /** The limiter's answer to the last request of a trace. */
  predicate Allowed(window: int, trace: seq<Request>)
    requires |trace| > 0
  {
    LazyNext(Lazy(window, trace[..|trace| - 1]), window, trace[|trace| - 1]).1
  }

  predicate FullAllowed(window: int, trace: seq<Request>)
    requires |trace| > 0
  {
    Next(Full(window, trace[..|trace| - 1]), window, trace[|trace| - 1]).1
  }

  /** The lazy table is the full one without some buckets that have expired. */
  ghost predicate Forgets(lazy: map<string, Bucket>, full: map<string, Bucket>, window: int, now: int) {
    && (forall k :: k in lazy ==> k in full && lazy[k] == full[k])
    && (forall k :: k in full && k !in lazy ==> Expired(full[k], window, now))
  }

  lemma ForgetsStep(lazy: map<string, Bucket>, full: map<string, Bucket>, window: int, last: int, r: Request)
    requires window > 0 && last <= r.now && Forgets(lazy, full, window, last)
    ensures LazyNext(lazy, window, r).1 == Next(full, window, r).1
    ensures Forgets(LazyNext(lazy, window, r).0, Next(full, window, r).0, window, r.now)
  {
  }

  /** Lazy eviction cannot be observed: with a clock that never runs backwards every request gets the
      answer of a limiter that never evicts. */
  lemma {:induction false} EvictionUnobservable(window: int, trace: seq<Request>)
    requires window > 0 && Monotone(trace)
    ensures |trace| > 0 ==> Allowed(window, trace) == FullAllowed(window, trace)
    ensures |trace| > 0 ==> Forgets(Lazy(window, trace), Full(window, trace), window, trace[|trace| - 1].now)
  {
    if |trace| > 0 {
      var init, r := trace[..|trace| - 1], trace[|trace| - 1];
      EvictionUnobservable(window, init);
      var last := if |init| > 0 then init[|init| - 1].now else r.now;
      ForgetsStep(Lazy(window, init), Full(window, init), window, last, r);
    }
  }

  /** Admissions of a key with `lo <= now < hi`. */
  function Admitted(window: int, trace: seq<Request>, key: string, lo: int, hi: int): nat {
    if |trace| == 0 then 0
    else
      var r := trace[|trace| - 1];
      Admitted(window, trace[..|trace| - 1], key, lo, hi)
      + if r.key == key && lo <= r.now < hi && Allowed(window, trace) then 1 else 0
  }

  predicate FixedLimit(trace: seq<Request>, key: string, limit: int) {
    forall i :: 0 <= i < |trace| && trace[i].key == key ==> trace[i].limit == limit
  }

  /** The admissions in `[t, t + window)`, by where the current window of the key starts. */
  ghost predicate Within(window: int, trace: seq<Request>, key: string, limit: int, t: int) {
    var full := Full(window, trace);
    var n := Admitted(window, trace, key, t, t + window);
    && (|trace| > 0 && trace[|trace| - 1].now < t ==> n == 0)
    && (key !in full ==> n == 0)
    && (key in full ==>
          var b := full[key];
          && 1 <= b.count <= limit
          && (|trace| > 0 ==> b.windowStart <= trace[|trace| - 1].now)
          && n <= if b.windowStart < t then b.count - 1
                  else if b.windowStart < t + window then b.count + limit - 1
                  else 2 * limit - 1)
  }

  lemma {:induction false} WithinStep(window: int, trace: seq<Request>, key: string, limit: int, t: int)
    requires window > 0 && limit > 0 && Monotone(trace) && FixedLimit(trace, key, limit)
    ensures Within(window, trace, key, limit, t)
  {
    if |trace| > 0 {
      var init, r := trace[..|trace| - 1], trace[|trace| - 1];
      WithinStep(window, init, key, limit, t);
      EvictionUnobservable(window, trace);
      assert |init| > 0 ==> init[|init| - 1].now <= r.now;
    }
  }

  /** Any half-open interval one window long admits at most `2 * limit - 1` requests of a key. */
  lemma AdmissionBound(window: int, trace: seq<Request>, key: string, limit: int, t: int)
    requires window > 0 && limit > 0 && Monotone(trace) && FixedLimit(trace, key, limit)
    ensures Admitted(window, trace, key, t, t + window) <= 2 * limit - 1
  {
    WithinStep(window, trace, key, limit, t);
  }

  /** The current bucket counts exactly the admissions since its window began. */
  lemma {:induction false} BucketCounts(window: int, trace: seq<Request>, key: string, limit: int, hi: int)
    requires window > 0 && limit > 0 && Monotone(trace) && FixedLimit(trace, key, limit)
    requires |trace| > 0 ==> trace[|trace| - 1].now < hi
    ensures key in Full(window, trace) ==>
              var b := Full(window, trace)[key];
              && |trace| > 0 && b.windowStart <= trace[|trace| - 1].now && b.count <= limit
              && Admitted(window, trace, key, b.windowStart, hi) == b.count
  {
    if |trace| > 0 {
      var init, r := trace[..|trace| - 1], trace[|trace| - 1];
      assert |init| > 0 ==> init[|init| - 1].now <= r.now;
      BucketCounts(window, init, key, limit, hi);
      EvictionUnobservable(window, trace);
      if r.key == key && Full(window, trace)[key] == Bucket(r.now, 1) {
        if key in Full(window, init) && Expired(Full(window, init)[key], window, r.now) {
          NoneSince(window, init, key, limit, r.now, hi);
        } else if key !in Full(window, init) {
          NoneEver(window, init, key, limit, r.now, hi);
        }
      }
    }
  }

  lemma {:induction false} NoneEver(window: int, trace: seq<Request>, key: string, limit: int, lo: int, hi: int)
    requires window > 0 && limit > 0 && Monotone(trace) && FixedLimit(trace, key, limit) && key !in Full(window, trace)
    ensures Admitted(window, trace, key, lo, hi) == 0
  {
    if |trace| > 0 {
      NoneEver(window, trace[..|trace| - 1], key, limit, lo, hi);
    }
  }

  /** A bucket that has expired saw its last admission before now. */
  lemma {:induction false} NoneSince(window: int, trace: seq<Request>, key: string, limit: int, now: int, hi: int)
    requires window > 0 && limit > 0 && Monotone(trace) && FixedLimit(trace, key, limit) && key in Full(window, trace)
    requires now - Full(window, trace)[key].windowStart >= window
    ensures Admitted(window, trace, key, now, hi) == 0
  {
    var init, r := trace[..|trace| - 1], trace[|trace| - 1];
    EvictionUnobservable(window, trace);
    if key in Full(window, init) {
      NoneSince(window, init, key, limit, now, hi);
    } else {
      NoneEver(window, init, key, limit, now, hi);
    }
  }

  /** A window opened by one request, filled up at its last instant, and the next one filled at once. */
  function Burst(window: int, key: string, limit: nat, n: nat): seq<Request> {
    if n == 0 then []
    else
      Burst(window, key, limit, n - 1)
      + [Request(BurstTime(window, limit, n), key, limit)]
  }

  function BurstTime(window: int, limit: nat, n: nat): int {
    if n == 1 then 0 else if n <= limit then window - 1 else window
  }

  lemma {:induction false} BurstShape(window: int, key: string, limit: nat, n: nat)
    requires window > 1
    ensures var trace := Burst(window, key, limit, n);
            && |trace| == n && Monotone(trace) && FixedLimit(trace, key, limit)
            && (n > 0 ==> trace[n - 1].now == BurstTime(window, limit, n))
  {
    if n > 0 { BurstShape(window, key, limit, n - 1); }
  }

  function BurstBuckets(window: int, key: string, limit: nat, n: nat): map<string, Bucket> {
    if n == 0 then map[] else map[key := if n <= limit then Bucket(0, n) else Bucket(window, n - limit)]
  }

  lemma BurstStep(window: int, key: string, limit: nat, n: nat)
    requires window > 1 && 1 <= n <= 2 * limit
    ensures LazyNext(BurstBuckets(window, key, limit, n - 1), window, Request(BurstTime(window, limit, n), key, limit))
         == (BurstBuckets(window, key, limit, n), true)
  {
    var before, after := BurstBuckets(window, key, limit, n - 1), BurstBuckets(window, key, limit, n);
    var r := Request(BurstTime(window, limit, n), key, limit);
    if n == 1 || n == limit + 1 {
      assert Live(before, window, r.now) == map[];
    } else {
      assert Live(before, window, r.now) == before;
    }
    assert LazyNext(before, window, r).0 == after;
  }

  lemma {:induction false} BurstAdmitted(window: int, key: string, limit: nat, n: nat)
    requires window > 1 && 1 <= n <= 2 * limit
    ensures var trace := Burst(window, key, limit, n);
            && Lazy(window, trace) == BurstBuckets(window, key, limit, n)
            && Admitted(window, trace, key, window - 1, 2 * window - 1) == n - 1
  {
    hide LazyNext, BurstBuckets, BurstTime;
    var trace, init := Burst(window, key, limit, n), Burst(window, key, limit, n - 1);
    var r := Request(BurstTime(window, limit, n), key, limit);
    assert trace == init + [r] && trace[..|trace| - 1] == init && trace[|trace| - 1] == r;
    BurstStep(window, key, limit, n);
    if n > 1 {
      BurstAdmitted(window, key, limit, n - 1);
    } else {
      NoBuckets(window, key, limit);
    }
    assert Allowed(window, trace);
    assert (window - 1 <= r.now < 2 * window - 1) <==> n > 1 by { InInterval(window, limit, n); }
  }

  lemma InInterval(window: int, limit: nat, n: nat)
    requires window > 1 && 1 <= n <= 2 * limit
    ensures (window - 1 <= BurstTime(window, limit, n) < 2 * window - 1) <==> n > 1
  {
  }

  lemma NoBuckets(window: int, key: string, limit: nat)
    ensures BurstBuckets(window, key, limit, 0) == map[] && Lazy(window, []) == map[]
  {
  }

  /** The bound is reached for every limit and every window of more than one instant. */
  lemma BoundIsReached(window: int, key: string, limit: nat)
    requires window > 1 && limit > 0
    ensures var trace := Burst(window, key, limit, 2 * limit);
            && Monotone(trace) && FixedLimit(trace, key, limit)
            && Admitted(window, trace, key, window - 1, (window - 1) + window) == 2 * limit - 1
  {
    BurstShape(window, key, limit, 2 * limit);
    BurstAdmitted(window, key, limit, 2 * limit);
  }

  /** A request is refused exactly when the window running at its time already holds `limit` admissions
      of its key: a window that began less than one window ago with one of them. */
  lemma RefusedExactly(window: int, trace: seq<Request>)
    requires window > 0 && |trace| > 0 && Monotone(trace)
    requires var r := trace[|trace| - 1]; r.limit > 0 && FixedLimit(trace, r.key, r.limit)
    ensures var (init, r) := (trace[..|trace| - 1], trace[|trace| - 1]);
            !Allowed(window, trace) <==>
              r.key in Full(window, init)
              && var s := Full(window, init)[r.key].windowStart;
                 r.now - window < s <= r.now && Admitted(window, init, r.key, s, r.now + 1) == r.limit
  {
    var init, r := trace[..|trace| - 1], trace[|trace| - 1];
    EvictionUnobservable(window, trace);
    assert |init| > 0 ==> init[|init| - 1].now <= r.now;
    BucketCounts(window, init, r.key, r.limit, r.now + 1);
  }

  /** A request without a limit is always admitted, and it is not counted. */
  lemma UnlimitedPasses(window: int, trace: seq<Request>)
    requires |trace| > 0 && trace[|trace| - 1].limit <= 0
    ensures Allowed(window, trace) && Lazy(window, trace) == Lazy(window, trace[..|trace| - 1])
  {
  }
}
