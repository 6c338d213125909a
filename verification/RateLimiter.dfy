/** The fixed-window rate limiter over Redis counters that expire. Times are in
    milliseconds; the limiter itself counts whole seconds. */
module RateLimiter {
  const WINDOW := 60
  const EXPIRY_MS := 120_000

  function WindowStart(at: nat): nat { at / 1000 - at / 1000 % WINDOW }

  type RateKey = (string, nat)

  datatype Counter = Counter(count: nat, expiresAt: nat)
  type Counters = map<RateKey, Counter>

  datatype Decision = Decision(allowed: bool, limit: int, remaining: int, retryAfter: int)

  /** What INCR finds: an expired counter is gone. */
  function Live(counters: Counters, key: RateKey, now: nat): nat {
    if key in counters && now < counters[key].expiresAt then counters[key].count else 0
  }

  function Hit(counters: Counters, bucket: string, limit: int, now: nat): (Counters, Decision) {
    var key := (bucket, WindowStart(now));
    var count := Live(counters, key, now) + 1;
    (counters[key := Counter(count, now + EXPIRY_MS)],
     if count > limit then Decision(false, limit, 0, WindowStart(now) + WINDOW - now / 1000)
     else Decision(true, limit, limit - count, 0))
  }

  /** `RedisRateLimiter` while Redis answers. */
  class RedisRateLimiter {
    var counters: Counters

    constructor ()
      ensures counters == map[]
    {
      counters := map[];
    }

    method HitBucket(bucket: string, limitPerMinute: int, nowMs: nat) returns (d: Decision)
      modifies this
      ensures (counters, d) == Hit(old(counters), bucket, limitPerMinute, nowMs)
    {
      var now := nowMs / 1000;
      var windowStart := now - now % WINDOW;
      var key := (bucket, windowStart);
      var count := if key in counters && nowMs < counters[key].expiresAt then counters[key].count + 1 else 1;
      counters := counters[key := Counter(count, nowMs + EXPIRY_MS)];
      if count > limitPerMinute {
        return Decision(false, limitPerMinute, 0, windowStart + WINDOW - now);
      }
      d := Decision(true, limitPerMinute, if limitPerMinute - count > 0 then limitPerMinute - count else 0, 0);
    }
  }

  /** What a hit leaves behind: its own counter one higher and good for two more
      minutes, every other counter as it was. */
  lemma HitLeaves(counters: Counters, bucket: string, limit: int, now: nat)
    ensures var after, key := Hit(counters, bucket, limit, now).0, (bucket, WindowStart(now));
            && key in after && after[key].expiresAt == now + 2 * 60 * 1000
            && after[key].count == 1 + (if key in counters && now < counters[key].expiresAt then counters[key].count else 0)
            && (forall k :: k != key ==> (k in after <==> k in counters))
            && (forall k :: k != key && k in counters ==> after[k] == counters[k])
  {
  }

  // ---- Traces of hits ----

  datatype HitEvent = HitEvent(at: nat, bucket: string, limit: int)

  function Replay(hits: seq<HitEvent>): Counters {
    if hits == [] then map[]
    else
      var h := hits[|hits| - 1];
      Hit(Replay(hits[..|hits| - 1]), h.bucket, h.limit, h.at).0
  }

  /** The decision on the last hit of a trace. */
  function LastDecision(hits: seq<HitEvent>): Decision
    requires hits != []
  {
    var h := hits[|hits| - 1];
    Hit(Replay(hits[..|hits| - 1]), h.bucket, h.limit, h.at).1
  }

  ghost predicate ClockOk(hits: seq<HitEvent>) {
    forall i, j :: 0 <= i < j < |hits| ==> hits[i].at <= hits[j].at
  }

  predicate InWindow(h: HitEvent, bucket: string, window: nat) { h.bucket == bucket && WindowStart(h.at) == window }

  function HitCount(hits: seq<HitEvent>, bucket: string, window: nat): nat {
    if hits == [] then 0
    else HitCount(hits[..|hits| - 1], bucket, window) + (if InWindow(hits[|hits| - 1], bucket, window) then 1 else 0)
  }

  /** How many requests of a bucket were admitted in one aligned minute. */
  function AdmittedCount(hits: seq<HitEvent>, bucket: string, window: nat): nat {
    if hits == [] then 0
    else
      AdmittedCount(hits[..|hits| - 1], bucket, window)
      + (if InWindow(hits[|hits| - 1], bucket, window) && LastDecision(hits).allowed then 1 else 0)
  }

  predicate InSpan(h: HitEvent, bucket: string, from: nat) { h.bucket == bucket && from <= h.at < from + 60_000 }

  /** How many were admitted within the 60 seconds starting at `from`. */
  function AdmittedInSpan(hits: seq<HitEvent>, bucket: string, from: nat): nat {
    if hits == [] then 0
    else
      AdmittedInSpan(hits[..|hits| - 1], bucket, from)
      + (if InSpan(hits[|hits| - 1], bucket, from) && LastDecision(hits).allowed then 1 else 0)
  }

  lemma WindowFacts(at: nat)
    ensures WindowStart(at) * 1000 <= at < (WindowStart(at) + WINDOW) * 1000
    ensures WindowStart(at) % WINDOW == 0
  {
    var s := at / 1000;
    assert s == WINDOW * (s / WINDOW) + s % WINDOW;
  }

  /** Inside its own window a counter is never lost to expiry: it shows exactly
      the hits of that window. */
  lemma {:induction false} LiveCountsHits(hits: seq<HitEvent>, bucket: string, now: nat)
    requires ClockOk(hits) && forall i :: 0 <= i < |hits| ==> hits[i].at <= now
    ensures Live(Replay(hits), (bucket, WindowStart(now)), now) == HitCount(hits, bucket, WindowStart(now))
  {
    if hits != [] {
      var front, h := hits[..|hits| - 1], hits[|hits| - 1];
      LiveCountsHits(front, bucket, now);
      if InWindow(h, bucket, WindowStart(now)) {
        LiveCountsHits(front, bucket, h.at);
        WindowFacts(now);
        WindowFacts(h.at);
      }
    }
  }

  /** A request is admitted exactly when fewer than `limit` requests hit its bucket
      earlier in the same aligned minute. */
  lemma AdmittedExactly(hits: seq<HitEvent>)
    requires hits != [] && ClockOk(hits)
    ensures var h := hits[|hits| - 1];
            LastDecision(hits).allowed <==> HitCount(hits[..|hits| - 1], h.bucket, WindowStart(h.at)) < h.limit
  {
    var front, h := hits[..|hits| - 1], hits[|hits| - 1];
    LiveCountsHits(front, h.bucket, h.at);
  }

  /** Every aligned minute admits exactly the first `limit` requests. */
  lemma {:induction false} MinuteBound(hits: seq<HitEvent>, bucket: string, limit: nat, window: nat)
    requires ClockOk(hits) && forall i :: 0 <= i < |hits| && hits[i].bucket == bucket ==> hits[i].limit == limit
    ensures AdmittedCount(hits, bucket, window)
            == if HitCount(hits, bucket, window) <= limit then HitCount(hits, bucket, window) else limit
  {
    if hits != [] {
      MinuteBound(hits[..|hits| - 1], bucket, limit, window);
      AdmittedExactly(hits);
    }
  }

  lemma SpanTouchesTwoWindows(at: nat, from: nat)
    requires from <= at < from + 60_000
    ensures WindowStart(at) == WindowStart(from) || WindowStart(at) == WindowStart(from) + WINDOW
  {
    WindowFacts(at);
    WindowFacts(from);
  }

  lemma {:induction false} SpanInWindows(hits: seq<HitEvent>, bucket: string, from: nat)
    ensures AdmittedInSpan(hits, bucket, from)
            <= AdmittedCount(hits, bucket, WindowStart(from)) + AdmittedCount(hits, bucket, WindowStart(from) + WINDOW)
  {
    if hits != [] {
      SpanInWindows(hits[..|hits| - 1], bucket, from);
      if InSpan(hits[|hits| - 1], bucket, from) {
        SpanTouchesTwoWindows(hits[|hits| - 1].at, from);
      }
    }
  }

  /** Any 60 seconds admit at most twice the limit. */
  lemma SpanBound(hits: seq<HitEvent>, bucket: string, limit: nat, from: nat)
    requires ClockOk(hits) && forall i :: 0 <= i < |hits| && hits[i].bucket == bucket ==> hits[i].limit == limit
    ensures AdmittedInSpan(hits, bucket, from) <= 2 * limit
  {
    SpanInWindows(hits, bucket, from);
    MinuteBound(hits, bucket, limit, WindowStart(from));
    MinuteBound(hits, bucket, limit, WindowStart(from) + WINDOW);
  }

  /** The advertised wait is honest: it leads to the start of the next window,
      where an undisturbed bucket admits again. */
  lemma RetryAfterSuffices(hits: seq<HitEvent>, later: HitEvent)
    requires hits != [] && ClockOk(hits + [later]) && !LastDecision(hits).allowed
    requires later.bucket == hits[|hits| - 1].bucket && later.limit >= 1
    requires later.at / 1000 >= hits[|hits| - 1].at / 1000 + LastDecision(hits).retryAfter
    ensures 1 <= LastDecision(hits).retryAfter <= WINDOW
    ensures LastDecision(hits + [later]).allowed
  {
    var h := hits[|hits| - 1];
    NextWindow(h.at, later.at);
    assert (hits + [later])[..|hits|] == hits;
    AdmittedExactly(hits + [later]);
    assert forall i :: 0 <= i < |hits| ==> (hits + [later])[i] == hits[i];
    forall i | 0 <= i < |hits| ensures WindowStart(hits[i].at) < WindowStart(later.at) {
      WindowsInOrder(hits[i].at, h.at);
    }
    NoHitsYet(hits, later.bucket, WindowStart(later.at));
  }

  lemma WindowsInOrder(a: nat, b: nat)
    requires a <= b
    ensures WindowStart(a) <= WindowStart(b)
  {
    WindowFacts(a);
    WindowFacts(b);
  }

  lemma NextWindow(a: nat, b: nat)
    requires b / 1000 >= WindowStart(a) + WINDOW
    ensures WindowStart(b) > WindowStart(a)
    ensures 1 <= WindowStart(a) + WINDOW - a / 1000 <= WINDOW
  {
    WindowFacts(a);
    WindowFacts(b);
  }

  lemma {:induction false} NoHitsYet(hits: seq<HitEvent>, bucket: string, window: nat)
    requires forall i :: 0 <= i < |hits| ==> WindowStart(hits[i].at) < window
    ensures HitCount(hits, bucket, window) == 0
  {
    if hits != [] { NoHitsYet(hits[..|hits| - 1], bucket, window); }
  }

  // ---- The same in minutes of 60 000 milliseconds ----

  lemma WindowIsMinute(at: nat)
    ensures WindowStart(at) == at / 60_000 * 60
  {
    var s := at / 1000;
    assert s == 60 * (s / 60) + s % 60;
    assert s / 60 == at / 60_000;
  }

  /** Hits of a bucket in one clock minute. */
  function MinuteHits(hits: seq<HitEvent>, bucket: string, minute: nat): nat {
    if hits == [] then 0
    else
      var h := hits[|hits| - 1];
      MinuteHits(hits[..|hits| - 1], bucket, minute) + (if h.bucket == bucket && h.at / 60_000 == minute then 1 else 0)
  }

  lemma {:induction false} MinuteHitsAreWindowHits(hits: seq<HitEvent>, bucket: string, minute: nat)
    ensures HitCount(hits, bucket, minute * 60) == MinuteHits(hits, bucket, minute)
  {
    if hits != [] {
      MinuteHitsAreWindowHits(hits[..|hits| - 1], bucket, minute);
      WindowIsMinute(hits[|hits| - 1].at);
    }
  }

  /** The whole decision: a hit passes exactly if fewer than `limit` hits came
      before it in its minute, and learns what is left of the budget; a refused one
      learns the seconds to the next minute. */
  lemma DecisionExactly(hits: seq<HitEvent>)
    requires hits != [] && ClockOk(hits)
    ensures var h, d := hits[|hits| - 1], LastDecision(hits);
            var before := MinuteHits(hits[..|hits| - 1], h.bucket, h.at / 60_000);
            && d.limit == h.limit
            && (d.allowed <==> before < h.limit)
            && (d.allowed ==> d.remaining == h.limit - before - 1 && d.retryAfter == 0)
            && (!d.allowed ==> d.remaining == 0 && d.retryAfter == (h.at / 60_000 + 1) * 60 - h.at / 1000)
  {
    var front, h := hits[..|hits| - 1], hits[|hits| - 1];
    LiveCountsHits(front, h.bucket, h.at);
    WindowIsMinute(h.at);
    MinuteHitsAreWindowHits(front, h.bucket, h.at / 60_000);
  }

  /** A minute admits exactly the first `limit` of its hits. */
  lemma MinuteExactly(hits: seq<HitEvent>, bucket: string, limit: nat, minute: nat)
    requires ClockOk(hits) && forall i :: 0 <= i < |hits| && hits[i].bucket == bucket ==> hits[i].limit == limit
    ensures AdmittedCount(hits, bucket, minute * 60)
            == if MinuteHits(hits, bucket, minute) <= limit then MinuteHits(hits, bucket, minute) else limit
  {
    MinuteBound(hits, bucket, limit, minute * 60);
    MinuteHitsAreWindowHits(hits, bucket, minute);
  }
}
