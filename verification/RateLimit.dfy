/** The fixed-window rate limiter (src/http/handlers/rate-limit.ts) and what it admits over whole histories. */
module RateLimit {
  import opened Common

  datatype Bucket = Bucket(count: int, resetAtMs: int)

  datatype Config = Config(enabled: bool, windowMs: int, maxRequests: int)

  datatype Decision = Admitted | Denied(retryAfterSeconds: int)

  type Buckets = map<string, Bucket>

  /** `Math.max(1, Math.ceil(ms / 1000))`. */
  function RetryAfter(ms: int): int {
    var seconds := (ms + 999) / 1000;
    if seconds < 1 then 1 else seconds
  }

  /** What one request does to the buckets, and its decision. */
  function Decide(config: Config, buckets: Buckets, key: string, now: int): (Buckets, Decision) {
    if !config.enabled then (buckets, Admitted)
    else if key !in buckets || buckets[key].resetAtMs <= now then
      (buckets[key := Bucket(1, now + config.windowMs)], Admitted)
    else if buckets[key].count >= config.maxRequests then (buckets, Denied(RetryAfter(buckets[key].resetAtMs - now)))
    else (buckets[key := buckets[key].(count := buckets[key].count + 1)], Admitted)
  }

  class RateLimiter {
    var buckets: Buckets

    constructor ()
      ensures buckets == map[]
    {
      buckets := map[];
    }

    /** `enforceRateLimit`, for the key made of the scope and the client id. */
    method Enforce(config: Config, scope: string, clientId: string, now: int) returns (d: Decision)
      modifies this`buckets
      ensures (buckets, d) == Decide(config, old(buckets), scope + ":" + clientId, now)
    {
      if !config.enabled {
        return Admitted;
      }
      var key := scope + ":" + clientId;
      if key !in buckets || buckets[key].resetAtMs <= now {
        buckets := buckets[key := Bucket(1, now + config.windowMs)];
        return Admitted;
      }
      var existing := buckets[key];
      if existing.count >= config.maxRequests {
        return Denied(RetryAfter(existing.resetAtMs - now));
      }
      buckets := buckets[key := existing.(count := existing.count + 1)];
      return Admitted;
    }
  }

  // ---- histories -------------------------------------------------------------------------

  datatype Request = Request(key: string, now: int)

  /** The buckets after the first `n` requests. */
  function After(config: Config, reqs: seq<Request>, n: nat): Buckets
    requires n <= |reqs|
  {
    if n == 0 then map[] else Decide(config, After(config, reqs, n - 1), reqs[n - 1].key, reqs[n - 1].now).0
  }

  function DecisionAt(config: Config, reqs: seq<Request>, i: nat): Decision
    requires i < |reqs|
  {
    Decide(config, After(config, reqs, i), reqs[i].key, reqs[i].now).1
  }

  /** Request `i` is an admission of `key` at a time in `[from, to)`. */
  predicate Counts(config: Config, reqs: seq<Request>, key: string, from: int, to: int, i: nat)
    requires i < |reqs|
  {
    reqs[i].key == key && DecisionAt(config, reqs, i).Admitted? && from <= reqs[i].now < to
  }

  /** The admissions of `key` in `[from, to)` among the first `n` requests. */
  function Admissions(config: Config, reqs: seq<Request>, key: string, from: int, to: int, n: nat): nat
    requires n <= |reqs|
  {
    if n == 0 then 0
    else Admissions(config, reqs, key, from, to, n - 1) + if Counts(config, reqs, key, from, to, n - 1) then 1 else 0
  }

  /** A fixed, enabled configuration and a clock that does not run backwards. */
  ghost predicate Orderly(config: Config, reqs: seq<Request>) {
    && config.enabled && config.windowMs > 0 && config.maxRequests > 0
    && forall i, j | 0 <= i < j < |reqs| :: reqs[i].now <= reqs[j].now
  }

  /**
   * What is known of the admissions `a` in `[from, from + w)` from the bucket of the key: a window
   * that began before the interval has spent its first admission outside it, and at most one
   * window can begin inside.
   */
  ghost predicate Bounded(config: Config, b: Bucket, from: int, a: int) {
    var start := b.resetAtMs - config.windowMs;
    && 1 <= b.count <= config.maxRequests
    && (start < from ==> a <= b.count - 1)
    && (from <= start < from + config.windowMs ==> a <= b.count + config.maxRequests - 1)
    && a <= 2 * config.maxRequests - 1
  }

  /** The clock shows at least the start of every window, and no admission lies ahead of it. */
  ghost predicate Upto(config: Config, buckets: Buckets, key: string, from: int, a: int, now: int) {
    && (key !in buckets ==> a == 0)
    && (key in buckets ==> Bounded(config, buckets[key], from, a) && buckets[key].resetAtMs - config.windowMs <= now)
    && (now < from ==> a == 0)
  }

  lemma OneRequest(config: Config, buckets: Buckets, r: Request, key: string, from: int, a: int, before: int)
    requires config.enabled && config.windowMs > 0 && config.maxRequests > 0 && before <= r.now
    requires Upto(config, buckets, key, from, a, before)
    ensures var (next, d) := Decide(config, buckets, r.key, r.now);
      Upto(config, next, key, from,
           a + (if r.key == key && d.Admitted? && from <= r.now < from + config.windowMs then 1 else 0), r.now)
  {
  }

  lemma {:induction false} AdmissionsBounded(config: Config, reqs: seq<Request>, key: string, from: int, n: nat)
    requires n <= |reqs| && Orderly(config, reqs)
    ensures n == 0 ==> Admissions(config, reqs, key, from, from + config.windowMs, n) == 0
    ensures n > 0 ==> Upto(config, After(config, reqs, n), key, from,
                           Admissions(config, reqs, key, from, from + config.windowMs, n), reqs[n - 1].now)
  {
    if n > 0 {
      AdmissionsBounded(config, reqs, key, from, n - 1);
      var before := if n == 1 then reqs[0].now else reqs[n - 2].now;
      OneRequest(config, After(config, reqs, n - 1), reqs[n - 1], key, from,
                 Admissions(config, reqs, key, from, from + config.windowMs, n - 1), before);
    }
  }

  /**
   * In any half-open interval as long as the window, a key gets at most `2 * maxRequests - 1`
   * admissions, over any history.
   */
  lemma IntervalBound(config: Config, reqs: seq<Request>, key: string, from: int)
    requires Orderly(config, reqs)
    ensures Admissions(config, reqs, key, from, from + config.windowMs, |reqs|) <= 2 * config.maxRequests - 1
  {
    AdmissionsBounded(config, reqs, key, from, |reqs|);
  }

  // ---- one window ------------------------------------------------------------------------

  /** The number of admissions of `key` from request `i` on, before time `to`. */
  function AdmissionsFrom(config: Config, reqs: seq<Request>, key: string, to: int, i: nat, n: nat): nat
    requires i <= n <= |reqs|
    decreases n
  {
    if n == i then 0
    else
      AdmissionsFrom(config, reqs, key, to, i, n - 1)
      + if reqs[n - 1].key == key && DecisionAt(config, reqs, n - 1).Admitted? && reqs[n - 1].now < to then 1 else 0
  }

  /** The bucket of a window that ends at `to` counts its `a` admissions, until a later window takes its place. */
  ghost predicate Counting(config: Config, b: Bucket, to: int, a: int, now: int) {
    && b.resetAtMs >= to && a <= config.maxRequests
    && (b.resetAtMs == to ==> a == b.count)
    && (b.resetAtMs > to ==> now >= to)
  }

  lemma CountingNext(config: Config, buckets: Buckets, r: Request, key: string, to: int, a: int, before: int)
    requires config.enabled && config.windowMs > 0 && config.maxRequests > 0 && before <= r.now
    requires key in buckets && Counting(config, buckets[key], to, a, before)
    ensures var (next, d) := Decide(config, buckets, r.key, r.now);
      key in next && Counting(config, next[key], to, a + (if r.key == key && d.Admitted? && r.now < to then 1 else 0), r.now)
  {
  }

  lemma {:induction false} WindowCounts(config: Config, reqs: seq<Request>, i: nat, n: nat)
    requires i < n <= |reqs| && Orderly(config, reqs) && DecisionAt(config, reqs, i).Admitted?
    requires After(config, reqs, i + 1) == After(config, reqs, i)[reqs[i].key := Bucket(1, reqs[i].now + config.windowMs)]
    ensures var key, to := reqs[i].key, reqs[i].now + config.windowMs;
      && key in After(config, reqs, n)
      && Counting(config, After(config, reqs, n)[key], to, AdmissionsFrom(config, reqs, key, to, i, n), reqs[n - 1].now)
  {
    var key, to := reqs[i].key, reqs[i].now + config.windowMs;
    if n == i + 1 {
      assert AdmissionsFrom(config, reqs, key, to, i, i) == 0;
    } else {
      WindowCounts(config, reqs, i, n - 1);
      CountingNext(config, After(config, reqs, n - 1), reqs[n - 1], key, to, AdmissionsFrom(config, reqs, key, to, i, n - 1),
                   reqs[n - 2].now);
    }
  }

  /** A request that opens a window; at most `maxRequests` are admitted before the window ends. */
  lemma WindowBound(config: Config, reqs: seq<Request>, i: nat)
    requires i < |reqs| && Orderly(config, reqs)
    requires reqs[i].key !in After(config, reqs, i) || After(config, reqs, i)[reqs[i].key].resetAtMs <= reqs[i].now
    ensures AdmissionsFrom(config, reqs, reqs[i].key, reqs[i].now + config.windowMs, i, |reqs|) <= config.maxRequests
  {
    WindowCounts(config, reqs, i, |reqs|);
  }

  // ---- who is denied ---------------------------------------------------------------------

  /**
   * Request `j` opened the window in which the bucket of `key` stands after `n` requests, and the
   * bucket counts exactly the requests admitted in that window.
   */
  ghost predicate WindowOpenedAt(config: Config, reqs: seq<Request>, key: string, n: nat, j: nat)
    requires j < n <= |reqs|
  {
    var to := reqs[j].now + config.windowMs;
    && reqs[j].key == key && DecisionAt(config, reqs, j).Admitted?
    && key in After(config, reqs, n)
    && After(config, reqs, n)[key] == Bucket(AdmissionsFrom(config, reqs, key, to, j, n), to)
  }

  /** Every bucket counts the admissions of the window it is in. */
  lemma {:induction false} BucketsCount(config: Config, reqs: seq<Request>, key: string, n: nat) returns (j: nat)
    requires config.enabled && config.windowMs > 0 && n <= |reqs| && key in After(config, reqs, n)
    ensures j < n && WindowOpenedAt(config, reqs, key, n, j)
  {
    var before, r := After(config, reqs, n - 1), reqs[n - 1];
    if r.key == key && (key !in before || before[key].resetAtMs <= r.now) {
      j := n - 1;
      assert AdmissionsFrom(config, reqs, key, r.now + config.windowMs, j, j) == 0;
    } else {
      j := BucketsCount(config, reqs, key, n - 1);
    }
  }

  /** A request is denied only in an open window that has admitted `maxRequests` requests of its key already. */
  lemma DeniedOnlyWhenFull(config: Config, reqs: seq<Request>, i: nat) returns (j: nat)
    requires config.windowMs > 0 && i < |reqs| && DecisionAt(config, reqs, i).Denied?
    ensures j < i && reqs[j].key == reqs[i].key && DecisionAt(config, reqs, j).Admitted?
    ensures reqs[i].now < reqs[j].now + config.windowMs
    ensures AdmissionsFrom(config, reqs, reqs[i].key, reqs[j].now + config.windowMs, j, i) >= config.maxRequests
  {
    j := BucketsCount(config, reqs, reqs[i].key, i);
  }

  /** The requests of one key, in order. */
  function OfKey(reqs: seq<Request>, key: string): seq<Request> {
    if reqs == [] then []
    else
      var before := OfKey(reqs[..|reqs| - 1], key);
      if reqs[|reqs| - 1].key == key then before + [reqs[|reqs| - 1]] else before
  }

  ghost predicate SameBucket(a: Buckets, b: Buckets, key: string) {
    (key in a <==> key in b) && (key in a ==> a[key] == b[key])
  }

  lemma OneKeyOnly(config: Config, a: Buckets, b: Buckets, key: string, r: Request)
    requires SameBucket(a, b, key)
    ensures r.key == key ==> Decide(config, a, key, r.now).1 == Decide(config, b, key, r.now).1
    ensures r.key == key ==> SameBucket(Decide(config, a, r.key, r.now).0, Decide(config, b, r.key, r.now).0, key)
    ensures r.key != key ==> SameBucket(Decide(config, a, r.key, r.now).0, b, key)
  {
  }

  lemma {:induction false} AfterAppend(config: Config, reqs: seq<Request>, r: Request, n: nat)
    requires n <= |reqs|
    ensures After(config, reqs + [r], n) == After(config, reqs, n)
  {
    if n > 0 { AfterAppend(config, reqs, r, n - 1); }
  }

  lemma {:induction false} AfterOfPrefix(config: Config, reqs: seq<Request>, m: nat, n: nat)
    requires n <= m <= |reqs|
    ensures After(config, reqs[..m], n) == After(config, reqs, n)
  {
    if n > 0 { AfterOfPrefix(config, reqs, m, n - 1); }
  }

  lemma {:induction false} BucketOfKey(config: Config, reqs: seq<Request>, key: string)
    ensures var own := OfKey(reqs, key); SameBucket(After(config, reqs, |reqs|), After(config, own, |own|), key)
  {
    if reqs != [] {
      var rest, r := reqs[..|reqs| - 1], reqs[|reqs| - 1];
      BucketOfKey(config, rest, key);
      AfterOfPrefix(config, reqs, |rest|, |rest|);
      var own := OfKey(rest, key);
      OneKeyOnly(config, After(config, rest, |rest|), After(config, own, |own|), key, r);
      if r.key == key { AfterAppend(config, own, r, |own|); }
    }
  }

  /** The decision about a request is the one it gets when only the requests of its own key are made. */
  lemma OwnHistoryDecides(config: Config, reqs: seq<Request>, i: nat)
    requires i < |reqs|
    ensures var before := OfKey(reqs[..i], reqs[i].key);
      DecisionAt(config, reqs, i) == DecisionAt(config, before + [reqs[i]], |before|)
  {
    var key := reqs[i].key;
    var before := OfKey(reqs[..i], key);
    BucketOfKey(config, reqs[..i], key);
    AfterOfPrefix(config, reqs, i, i);
    AfterAppend(config, before, reqs[i], |before|);
    OneKeyOnly(config, After(config, reqs, i), After(config, before, |before|), key, reqs[i]);
  }

  // ---- retry-after -----------------------------------------------------------------------

  /**
   * Waiting the advertised time outlasts the denying window, with less than a second to spare:
   * if nothing else happens to the key, the request is then admitted.
   */
  lemma RetryAfterOutlasts(config: Config, buckets: Buckets, key: string, now: int, later: int)
    requires config.enabled && Decide(config, buckets, key, now).1.Denied?
    ensures var seconds := Decide(config, buckets, key, now).1.retryAfterSeconds;
      && seconds >= 1 && key in buckets
      && now + 1000 * seconds >= buckets[key].resetAtMs > now + 1000 * (seconds - 1)
      && (later >= now + 1000 * seconds ==> Decide(config, buckets, key, later).1.Admitted?)
  {
  }

  // ---- the bound is reached --------------------------------------------------------------

  /** `n` requests of one key at one time. */
  function Burst(key: string, now: int, n: nat): (r: seq<Request>)
    ensures |r| == n && forall i | 0 <= i < n :: r[i] == Request(key, now)
  {
    if n == 0 then [] else Burst(key, now, n - 1) + [Request(key, now)]
  }

  /** One request, the rest of the window at its last instant, a full window at once after it. */
  function WorstCase(config: Config, key: string): seq<Request>
    requires config.maxRequests > 0
  {
    [Request(key, 0)] + Burst(key, config.windowMs - 1, config.maxRequests - 1) + Burst(key, config.windowMs, config.maxRequests)
  }

  lemma WorstCaseAt(config: Config, key: string, i: nat)
    requires config.maxRequests > 0 && i < 2 * config.maxRequests
    ensures |WorstCase(config, key)| == 2 * config.maxRequests
    ensures WorstCase(config, key)[i]
         == Request(key, if i == 0 then 0 else if i < config.maxRequests then config.windowMs - 1 else config.windowMs)
  {
  }

  lemma {:induction false} WorstCaseBuckets(config: Config, key: string, n: nat)
    requires config.enabled && config.windowMs >= 2 && 0 < n <= 2 * config.maxRequests
    requires |WorstCase(config, key)| == 2 * config.maxRequests
    ensures After(config, WorstCase(config, key), n)
         == map[key := if n <= config.maxRequests then Bucket(n, config.windowMs) else Bucket(n - config.maxRequests, 2 * config.windowMs)]
    ensures DecisionAt(config, WorstCase(config, key), n - 1).Admitted?
  {
    var reqs := WorstCase(config, key);
    WorstCaseAt(config, key, n - 1);
    if n > 1 { WorstCaseBuckets(config, key, n - 1); }
  }

  lemma {:induction false} WorstCaseAdmissions(config: Config, key: string, n: nat)
    requires config.enabled && config.windowMs >= 2 && 0 < n <= 2 * config.maxRequests
    requires |WorstCase(config, key)| == 2 * config.maxRequests
    ensures Admissions(config, WorstCase(config, key), key, config.windowMs - 1, 2 * config.windowMs - 1, n) == n - 1
  {
    WorstCaseAt(config, key, n - 1);
    WorstCaseBuckets(config, key, n);
    if n > 1 { WorstCaseAdmissions(config, key, n - 1); }
  }

  /** No smaller bound holds: for windows of two milliseconds or more it is reached. */
  lemma IntervalBoundIsReached(config: Config, key: string)
    requires config.enabled && config.windowMs >= 2 && config.maxRequests > 0
    ensures var reqs := WorstCase(config, key);
      && Orderly(config, reqs)
      && Admissions(config, reqs, key, config.windowMs - 1, config.windowMs - 1 + config.windowMs, |reqs|)
         == 2 * config.maxRequests - 1
  {
    var reqs := WorstCase(config, key);
    forall i, j | 0 <= i < j < |reqs| ensures reqs[i].now <= reqs[j].now {
      WorstCaseAt(config, key, i);
      WorstCaseAt(config, key, j);
    }
    WorstCaseAt(config, key, 0);
    WorstCaseAdmissions(config, key, 2 * config.maxRequests);
  }
}
