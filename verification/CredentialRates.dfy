/** The rate bound on whole runs: raw keys, exchanges and bearer tokens of one key
    draw on one budget. */
module CredentialRates {
  import opened Common
  import opened RateLimiter
  import opened ApiKeys
  import opened Credentials
  import opened CredentialRuns
  import KeyLineage

  predicate KeyedHit(keys: Keys, h: HitEvent) {
    |h.bucket| >= 4 && h.bucket == BucketOf(h.bucket[4..]) && h.bucket[4..] in keys && h.limit == keys[h.bucket[4..]].rateLimit
  }

  /** The counters are those the recorded hits leave, and every hit was charged to
      an existing key under that key's own limit. */
  ghost predicate HitsOk(s: State) {
    && s.counters == Replay(s.hits) && ClockOk(s.hits)
    && (forall i :: 0 <= i < |s.hits| ==> s.hits[i].at <= s.now && KeyedHit(s.keys, s.hits[i]))
  }

  lemma BucketNamesKey(k: KeyId)
    ensures |BucketOf(k)| >= 4 && BucketOf(k)[4..] == k
  {
  }

  lemma ChargedIsKnown(cfg: Config, s: State, e: Event, lim: Limits)
    requires Legal(s, e, lim) && TokensOk(cfg, s) && Charged(cfg, s, e).Some?
    ensures KnownClaims(s.keys, Charged(cfg, s, e).value)
  {
    if !e.step.CheckBearer? {
      ChargedKeyIsUsable(cfg, s, e);
    }
  }

  /** A step that reaches the limiter adds one hit, and succeeds if it is allowed. */
  lemma ChargedHits(cfg: Config, s: State, e: Event)
    requires s.counters == Replay(s.hits) && Charged(cfg, s, e).Some?
    ensures var t, c := Next(cfg, s, e), Charged(cfg, s, e).value;
            && t.hits == s.hits + [HitFor(c, e.at)] && t.counters == Replay(t.hits)
            && (AnyAdmits(cfg, s, e) <==> LastDecision(t.hits).allowed)
            && forall k :: Admits(cfg, s, e, k) <==> AnyAdmits(cfg, s, e) && c.keyId == k
  {
    var h := HitFor(Charged(cfg, s, e).value, e.at);
    AnswerIsHit(cfg, s, e);
    OneMoreHit(s.hits, h);
    assert Next(cfg, s, e).hits == s.hits + [h];
  }

  lemma OneMoreHit(hits: seq<HitEvent>, h: HitEvent)
    ensures Hit(Replay(hits), h.bucket, h.limit, h.at) == (Replay(hits + [h]), LastDecision(hits + [h]))
  {
    assert (hits + [h])[..|hits|] == hits;
  }

  /** Any other step leaves hits and counters alone and admits nobody. */
  lemma UnchargedHits(cfg: Config, s: State, e: Event)
    requires Charged(cfg, s, e).None?
    ensures Next(cfg, s, e).hits == s.hits && Next(cfg, s, e).counters == s.counters && !AnyAdmits(cfg, s, e)
  {
    if Validates(e.step) { AnswerIsHit(cfg, s, e); }
  }

  lemma NextHits(cfg: Config, s: State, e: Event)
    requires s.counters == Replay(s.hits)
    ensures var t := Next(cfg, s, e);
            match Charged(cfg, s, e)
            case None => t.hits == s.hits && t.counters == s.counters && !AnyAdmits(cfg, s, e)
            case Some(c) =>
              && t.hits == s.hits + [HitFor(c, e.at)] && t.counters == Replay(t.hits)
              && (AnyAdmits(cfg, s, e) <==> LastDecision(t.hits).allowed)
              && forall k :: Admits(cfg, s, e, k) <==> AnyAdmits(cfg, s, e) && c.keyId == k
  {
    if Charged(cfg, s, e).Some? { ChargedHits(cfg, s, e); } else { UnchargedHits(cfg, s, e); }
  }

  predicate AnyAdmits(cfg: Config, s: State, e: Event) { Validates(e.step) && Answer(cfg, s, e).1.Ok? }

  lemma StepKeepsHits(cfg: Config, s: State, e: Event, t: State)
    requires HitsOk(s) && s.now <= e.at == t.now && KeysMoved(s, t) && t.counters == Replay(t.hits)
    requires t.hits == s.hits || exists c :: t.hits == s.hits + [HitFor(c, e.at)] && KnownClaims(s.keys, c)
    ensures HitsOk(t)
  {
    forall i | 0 <= i < |t.hits| ensures t.hits[i].at <= t.now && KeyedHit(t.keys, t.hits[i]) {
      if i < |s.hits| {
        assert t.hits[i] == s.hits[i] && KeyedHit(s.keys, s.hits[i]);
      } else {
        var c :| t.hits == s.hits + [HitFor(c, e.at)] && KnownClaims(s.keys, c);
        BucketNamesKey(c.keyId);
      }
    }
  }

  lemma {:induction false} HitsStayOk(cfg: Config, events: seq<Event>, lim: Limits)
    requires LegalRun(cfg, events, lim)
    ensures HitsOk(Run(cfg, events))
  {
    if events != [] {
      var s, e := Run(cfg, events[..|events| - 1]), events[|events| - 1];
      HitsStayOk(cfg, events[..|events| - 1], lim);
      TokensStayOk(cfg, events[..|events| - 1], lim);
      KeysMove(cfg, s, e, lim);
      TokensMove(cfg, s, e, lim);
      NextHits(cfg, s, e);
      if Charged(cfg, s, e).Some? {
        ChargedIsKnown(cfg, s, e, lim);
      }
      StepKeepsHits(cfg, s, e, Next(cfg, s, e));
    }
  }

  // ---- Successful validations of a run ----

  /** How many events of the run validated a credential of `k` in one aligned minute. */
  function AdmittedInMinute(cfg: Config, events: seq<Event>, k: KeyId, minute: nat): nat {
    if events == [] then 0
    else
      var front, e := events[..|events| - 1], events[|events| - 1];
      AdmittedInMinute(cfg, front, k, minute)
      + if Admits(cfg, Run(cfg, front), e, k) && e.at / 60_000 == minute then 1 else 0
  }

  /** The same for the 60 seconds starting at `from`. */
  function AdmittedInSixty(cfg: Config, events: seq<Event>, k: KeyId, from: nat): nat {
    if events == [] then 0
    else
      var front, e := events[..|events| - 1], events[|events| - 1];
      AdmittedInSixty(cfg, front, k, from)
      + if Admits(cfg, Run(cfg, front), e, k) && from <= e.at < from + 60_000 then 1 else 0
  }

  lemma SameBucketSameKey(a: KeyId, b: KeyId)
    requires BucketOf(a) == BucketOf(b)
    ensures a == b
  {
    BucketNamesKey(a);
    BucketNamesKey(b);
  }

  /** Successful validations are exactly the admitted hits of the key's bucket. */
  lemma {:induction false} AdmittedAreHits(cfg: Config, events: seq<Event>, lim: Limits, k: KeyId, minute: nat, from: nat)
    requires LegalRun(cfg, events, lim)
    ensures AdmittedInMinute(cfg, events, k, minute) == AdmittedCount(Run(cfg, events).hits, BucketOf(k), minute * 60)
    ensures AdmittedInSixty(cfg, events, k, from) == AdmittedInSpan(Run(cfg, events).hits, BucketOf(k), from)
  {
    if events != [] {
      var front, e := events[..|events| - 1], events[|events| - 1];
      var s := Run(cfg, front);
      AdmittedAreHits(cfg, front, lim, k, minute, from);
      WindowIsMinute(e.at);
      HitsStayOk(cfg, front, lim);
      NextHits(cfg, s, e);
      if Charged(cfg, s, e).Some? {
        var c := Charged(cfg, s, e).value;
        assert (s.hits + [HitFor(c, e.at)])[..|s.hits|] == s.hits;
        if BucketOf(c.keyId) == BucketOf(k) { SameBucketSameKey(c.keyId, k); }
      }
    }
  }

  /** In any run, each aligned minute admits at most the key's limit over raw keys,
      exchanges and tokens together, and any 60 seconds at most twice that. */
  lemma RateBoundOverRuns(cfg: Config, events: seq<Event>, lim: Limits, k: KeyId, minute: nat, from: nat)
    requires LegalRun(cfg, events, lim) && k in Run(cfg, events).keys
    ensures var limit := Run(cfg, events).keys[k].rateLimit;
            && 1 <= limit
            && AdmittedInMinute(cfg, events, k, minute) <= limit
            && AdmittedInSixty(cfg, events, k, from) <= 2 * limit
  {
    var s := Run(cfg, events);
    KeyLineage.LineageHolds(cfg, events, lim);
    HitsStayOk(cfg, events, lim);
    AdmittedAreHits(cfg, events, lim, k, minute, from);
    forall i | 0 <= i < |s.hits| && s.hits[i].bucket == BucketOf(k) ensures s.hits[i].limit == s.keys[k].rateLimit {
      BucketNamesKey(k);
    }
    MinuteBound(s.hits, BucketOf(k), s.keys[k].rateLimit, minute * 60);
    SpanBound(s.hits, BucketOf(k), s.keys[k].rateLimit, from);
  }

  /** A refused credential that reached the limiter means the minute's budget is
      used up: exactly `limit` successes already. */
  lemma RefusedOnlyWhenSpent(cfg: Config, events: seq<Event>, lim: Limits)
    requires events != [] && LegalRun(cfg, events, lim)
    requires var s := Run(cfg, events[..|events| - 1]); var e := events[|events| - 1];
             Charged(cfg, s, e).Some? && !AnyAdmits(cfg, s, e)
    ensures var s := Run(cfg, events[..|events| - 1]); var e := events[|events| - 1]; var c := Charged(cfg, s, e).value;
            c.keyId in s.keys && AdmittedInMinute(cfg, events, c.keyId, e.at / 60_000) == s.keys[c.keyId].rateLimit
  {
    var front, e := events[..|events| - 1], events[|events| - 1];
    var s := Run(cfg, front);
    var c := Charged(cfg, s, e).value;
    HitsStayOk(cfg, front, lim);
    TokensStayOk(cfg, front, lim);
    ChargedIsKnown(cfg, s, e, lim);
    NextHits(cfg, s, e);
    HitsStayOk(cfg, events, lim);
    assert (s.hits + [HitFor(c, e.at)])[..|s.hits|] == s.hits;
    AdmittedExactly(s.hits + [HitFor(c, e.at)]);
    KeyLineage.LineageHolds(cfg, front, lim);
    AdmittedAreHits(cfg, front, lim, c.keyId, e.at / 60_000, 0);
    WindowIsMinute(e.at);
    forall i | 0 <= i < |s.hits| && s.hits[i].bucket == BucketOf(c.keyId) ensures s.hits[i].limit == s.keys[c.keyId].rateLimit {
      BucketNamesKey(c.keyId);
    }
    MinuteBound(s.hits, BucketOf(c.keyId), s.keys[c.keyId].rateLimit, WindowStart(e.at));
  }
}
