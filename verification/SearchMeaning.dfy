/** What a page of results contains, in terms of the records of the collection:
    their payloads, their cosines to the query and to the modifier. */
module SearchMeaning {
  import opened Common
  import opened VectorMath
  import opened Sorting
  import opened VectorStore
  import opened Reranking
  import opened SearchPipeline

  // ---- The filter ----

  /** Python's equality of JSON scalars. */
  predicate SameJson(a: Json, b: Json) {
    || a == b
    || (a.Bool? && b.Num? && b.n == (if a.b then 1.0 else 0.0))
    || (a.Num? && b.Bool? && a.n == (if b.b then 1.0 else 0.0))
  }

  /** Every filter names a payload value that equals it; null also matches a key
      that is not there. */
  predicate PassesFilter(payload: map<string, Json>, filters: map<string, Json>) {
    forall k :: k in filters ==> if k in payload then SameJson(payload[k], filters[k]) else filters[k] == Null
  }

  lemma FilterExactly(payload: map<string, Json>, filters: map<string, Json>)
    ensures Matches(payload, filters) <==> PassesFilter(payload, filters)
  {
  }

  // ---- From hits to records ----

  ghost predicate HitsOf(sqrt: real -> real, query: Vector, hits: seq<Hit>, recs: seq<VectorRecord>, withVectors: bool) {
    |recs| == |hits| && forall i :: 0 <= i < |hits| ==>
      hits[i] == Hit(recs[i].id, Cosine(sqrt, query, recs[i].vector), recs[i].payload, if withVectors then Some(recs[i].vector) else None)
  }

  ghost predicate DistinctRecords(recs: seq<VectorRecord>) {
    forall i, j :: 0 <= i < j < |recs| ==> recs[i].id != recs[j].id
  }

  ghost predicate IsHitOfSome(sqrt: real -> real, col: Collection, query: Vector, filters: map<string, Json>, withVectors: bool, h: Hit) {
    exists r :: r in col && Matches(r.payload, filters) && h == HitFor(sqrt, query, r, withVectors)
  }

  lemma {:induction false} PickRecords(sqrt: real -> real, col: Collection, query: Vector, filters: map<string, Json>, withVectors: bool, hs: seq<Hit>)
    returns (recs: seq<VectorRecord>)
    requires forall i :: 0 <= i < |hs| ==> IsHitOfSome(sqrt, col, query, filters, withVectors, hs[i])
    ensures HitsOf(sqrt, query, hs, recs, withVectors)
    ensures forall r :: r in recs ==> r in col && Matches(r.payload, filters)
  {
    recs := [];
    if hs != [] {
      var front, h := hs[..|hs| - 1], hs[|hs| - 1];
      recs := PickRecords(sqrt, col, query, filters, withVectors, front);
      assert IsHitOfSome(sqrt, col, query, filters, withVectors, h);
      var r :| r in col && Matches(r.payload, filters) && h == HitFor(sqrt, query, r, withVectors);
      recs := recs + [r];
    }
  }

  /** The ranking is exactly the records that pass the filter, nearest first. */
  lemma {:induction false} RankedRecords(sqrt: real -> real, col: Collection, query: Vector, filters: map<string, Json>, withVectors: bool)
    returns (recs: seq<VectorRecord>)
    requires UniqueIds(col)
    ensures HitsOf(sqrt, query, Ranking(sqrt, col, query, filters, withVectors), recs, withVectors)
    ensures DistinctRecords(recs)
    ensures forall r :: r in recs <==> r in col && PassesFilter(r.payload, filters)
    ensures forall i, j :: 0 <= i < j < |recs| ==> Cosine(sqrt, query, recs[i].vector) >= Cosine(sqrt, query, recs[j].vector)
  {
    var all := Ranking(sqrt, col, query, filters, withVectors);
    RankingMeaning(sqrt, col, query, filters, withVectors);
    forall i | 0 <= i < |all| ensures IsHitOfSome(sqrt, col, query, filters, withVectors, all[i]) { assert all[i] in all; }
    recs := PickRecords(sqrt, col, query, filters, withVectors, all);
    forall r ensures r in recs <==> r in col && PassesFilter(r.payload, filters) {
      FilterExactly(r.payload, filters);
      if r in col && Matches(r.payload, filters) {
        assert HitFor(sqrt, query, r, withVectors) in all;
        var i :| 0 <= i < |all| && all[i] == HitFor(sqrt, query, r, withVectors);
        SameIdSameRecord(col, recs[i], r);
      }
    }
    forall i, j | 0 <= i < j < |recs| ensures Cosine(sqrt, query, recs[i].vector) >= Cosine(sqrt, query, recs[j].vector) {
      assert ScoreOf(all[i]) >= ScoreOf(all[j]);
    }
  }

  lemma SameIdSameRecord(col: Collection, r: VectorRecord, q: VectorRecord)
    requires UniqueIds(col) && r in col && q in col && r.id == q.id
    ensures r == q
  {
    var i :| 0 <= i < |col| && col[i] == r;
    var j :| 0 <= j < |col| && col[j] == q;
    assert i == j;
  }

  // ---- Pages ----

  /** Exactly the first `c` scores are high enough. */
  ghost predicate CutAt(scores: seq<real>, minScore: real, c: nat) {
    c <= |scores| && forall i :: 0 <= i < |scores| ==> (scores[i] >= minScore <==> i < c)
  }

  /** How many of `c` results a page shows. */
  function PageLength(c: nat, p: Params): int {
    if c <= p.offset then 0 else if c - p.offset <= p.topK then c - p.offset else p.topK
  }

  /** The page shows results number offset, offset + 1, ... of the first `c`. */
  ghost predicate ShowsRecords(round6: real -> real, page: seq<RankedResult>, recs: seq<VectorRecord>, scores: seq<real>, c: nat, p: Params)
    requires ValidParams(p) && c <= |recs| == |scores|
  {
    |page| == PageLength(c, p)
    && forall i :: 0 <= i < |page| ==>
         page[i] == RankedResult(recs[p.offset + i].id, round6(scores[p.offset + i]), recs[p.offset + i].payload)
  }

  function ScoresOf(hits: seq<Hit>): (scores: seq<real>)
    ensures |scores| == |hits| && forall i :: 0 <= i < |hits| ==> scores[i] == hits[i].score
  {
    seq(|hits|, i requires 0 <= i < |hits| => hits[i].score)
  }

  /** The score filter keeps the first `c` hits, as results. */
  ghost predicate KeepsFirst(round6: real -> real, hits: seq<Hit>, kept: seq<RankedResult>, minScore: real, c: nat) {
    && |kept| == c <= |hits|
    && (forall i :: 0 <= i < |hits| ==> (hits[i].score >= minScore <==> i < c))
    && (forall i :: 0 <= i < c ==> kept[i] == RankedResult(hits[i].id, round6(hits[i].score), hits[i].payload))
  }

  lemma KeepOneMore(round6: real -> real, hits: seq<Hit>, kept: seq<RankedResult>, minScore: real, c: nat, h: Hit)
    requires KeepsFirst(round6, hits, kept, minScore, c) && forall i :: 0 <= i < |hits| ==> hits[i].score >= h.score
    ensures h.score < minScore ==> KeepsFirst(round6, hits + [h], kept, minScore, c)
    ensures h.score >= minScore ==> c == |hits| && KeepsFirst(round6, hits + [h], kept + [RankedResult(h.id, round6(h.score), h.payload)], minScore, c + 1)
  {
    assert c < |hits| ==> hits[c].score >= h.score;
  }

  lemma {:induction false} KeptExactly(round6: real -> real, hits: seq<Hit>, minScore: real) returns (c: nat)
    requires Descending(hits, ScoreOf)
    ensures KeepsFirst(round6, hits, Kept(round6, hits, minScore), minScore, c)
  {
    c := 0;
    if hits != [] {
      var front, h := hits[..|hits| - 1], hits[|hits| - 1];
      c := KeptExactly(round6, front, minScore);
      assert forall i :: 0 <= i < |front| ==> ScoreOf(hits[i]) >= ScoreOf(h);
      KeepOneMore(round6, front, Kept(round6, front, minScore), minScore, c, h);
      assert hits == front + [h];
      if h.score >= minScore { c := c + 1; }
    }
  }

  lemma PageOfHits(round6: real -> real, hits: seq<Hit>, recs: seq<VectorRecord>, p: Params) returns (c: nat)
    requires ValidParams(p) && Descending(hits, ScoreOf) && |recs| == |hits|
    requires forall i :: 0 <= i < |hits| ==> hits[i].id == recs[i].id && hits[i].payload == recs[i].payload
    ensures CutAt(ScoresOf(hits), p.minScore, c)
    ensures ShowsRecords(round6, Page(round6, hits, p), recs, ScoresOf(hits), c, p)
  {
    c := KeptExactly(round6, hits, p.minScore);
    SliceShows(round6, hits, recs, Kept(round6, hits, p.minScore), c, p);
  }

  lemma SliceShows(round6: real -> real, hits: seq<Hit>, recs: seq<VectorRecord>, kept: seq<RankedResult>, c: nat, p: Params)
    requires ValidParams(p) && KeepsFirst(round6, hits, kept, p.minScore, c) && |recs| == |hits|
    requires forall i :: 0 <= i < |hits| ==> hits[i].id == recs[i].id && hits[i].payload == recs[i].payload
    ensures ShowsRecords(round6, Slice(kept, p.offset, p.offset + p.topK), recs, ScoresOf(hits), c, p)
  {
    SliceExactly(kept, p.offset, p.offset + p.topK);
  }

  lemma SliceExactly<T>(s: seq<T>, lo: nat, hi: nat)
    requires lo <= hi
    ensures |Slice(s, lo, hi)| == (if |s| <= lo then 0 else if |s| <= hi then |s| - lo else hi - lo)
    ensures forall i :: 0 <= i < |Slice(s, lo, hi)| ==> Slice(s, lo, hi)[i] == s[lo + i]
  {
  }

  /** A page of the fast path: with `recs` the records that pass the filter, nearest
      to the query first, and `c` of them near enough, the page shows results
      offset, ..., offset + top_k - 1 of those `c`, each with its own id, rounded
      cosine and payload. */
  lemma FastPageExactly(a: Arithmetic, col: Collection, query: Vector, p: Params) returns (recs: seq<VectorRecord>, scores: seq<real>, c: nat)
    requires ValidParams(p) && UniqueIds(col)
    ensures DistinctRecords(recs) && forall r :: r in recs <==> r in col && PassesFilter(r.payload, p.filters)
    ensures |scores| == |recs| && forall i :: 0 <= i < |recs| ==> scores[i] == Cosine(a.sqrt, query, recs[i].vector)
    ensures forall i, j :: 0 <= i < j < |scores| ==> scores[i] >= scores[j]
    ensures CutAt(scores, p.minScore, c)
    ensures var r := Pipeline(a, col, query, p, false, None); r.Ok? && ShowsRecords(a.round6, r.value, recs, scores, c, p)
  {
    var all := Ranking(a.sqrt, col, query, p.filters, false);
    recs := RankedRecords(a.sqrt, col, query, p.filters, false);
    scores := ScoresOf(all);
    RankingMeaning(a.sqrt, col, query, p.filters, false);
    PageOfPrefix(a.round6, all, Fetch(p, false), p);
    c := PageOfHits(a.round6, all, recs, p);
  }

  // ---- All pages ----

  /** Where page number `n` of one size starts. */
  function Start(size: nat, n: nat): nat { if n == 0 then 0 else Start(size, n - 1) + size }

  lemma {:induction false} StartIs(size: nat, n: nat)
    ensures Start(size, n) == n * size
  {
    if n > 0 {
      StartIs(size, n - 1);
      assert (n - 1) * size + size == n * size;
    }
  }

  /** The first `n` pages of one size, one after the other. */
  function Pages(a: Arithmetic, col: Collection, query: Vector, p: Params, n: nat): seq<RankedResult>
    requires ValidParams(p)
  {
    if n == 0 then []
    else
      var r := Pipeline(a, col, query, p.(offset := Start(p.topK, n - 1)), false, None);
      Pages(a, col, query, p, n - 1) + (if r.Ok? then r.value else [])
  }

  lemma TakeMore<T>(s: seq<T>, lo: nat, hi: nat)
    requires lo <= hi
    ensures Take(s, hi) == Take(s, lo) + Slice(s, lo, hi)
  {
  }

  lemma {:induction false} PagesAreAPrefix(a: Arithmetic, col: Collection, query: Vector, p: Params, n: nat)
    requires ValidParams(p)
    ensures Pages(a, col, query, p, n) == Take(AllResults(a, col, query, p.minScore, p.filters), Start(p.topK, n))
  {
    if n > 0 {
      var all := AllResults(a, col, query, p.minScore, p.filters);
      var lo := Start(p.topK, n - 1);
      PagesAreAPrefix(a, col, query, p, n - 1);
      OnePage(a, col, query, p, lo);
      TakeMore(all, lo, lo + p.topK);
    }
  }

  lemma OnePage(a: Arithmetic, col: Collection, query: Vector, p: Params, lo: nat)
    requires ValidParams(p)
    ensures Pipeline(a, col, query, p.(offset := lo), false, None) == Ok(Slice(AllResults(a, col, query, p.minScore, p.filters), lo, lo + p.topK))
  {
    PagingLossless(a, col, query, p.(offset := lo), None);
  }

  lemma CutRecords(ranked: seq<VectorRecord>, scores: seq<real>, minScore: real, c: nat, r: VectorRecord)
    requires |scores| == |ranked| && CutAt(scores, minScore, c)
    ensures r in ranked[..c] <==> exists i :: 0 <= i < |ranked| && ranked[i] == r && scores[i] >= minScore
  {
    if i :| 0 <= i < |ranked| && ranked[i] == r && scores[i] >= minScore {
      assert ranked[..c][i] == r;
    }
    if r in ranked[..c] {
      var i :| 0 <= i < c && ranked[..c][i] == r;
      assert ranked[i] == r && scores[i] >= minScore;
    }
  }

  /** The full result list, record by record. */
  lemma AllResultsExactly(a: Arithmetic, col: Collection, query: Vector, p: Params) returns (recs: seq<VectorRecord>)
    requires UniqueIds(col)
    ensures DistinctRecords(recs)
    ensures forall r :: r in recs <==> r in col && PassesFilter(r.payload, p.filters) && Cosine(a.sqrt, query, r.vector) >= p.minScore
    ensures forall i, j :: 0 <= i < j < |recs| ==> Cosine(a.sqrt, query, recs[i].vector) >= Cosine(a.sqrt, query, recs[j].vector)
    ensures var all := AllResults(a, col, query, p.minScore, p.filters);
            |all| == |recs|
            && forall i :: 0 <= i < |recs| ==> all[i] == RankedResult(recs[i].id, a.round6(Cosine(a.sqrt, query, recs[i].vector)), recs[i].payload)
  {
    var all := Ranking(a.sqrt, col, query, p.filters, false);
    var ranked := RankedRecords(a.sqrt, col, query, p.filters, false);
    RankingMeaning(a.sqrt, col, query, p.filters, false);
    var c := KeptExactly(a.round6, all, p.minScore);
    recs := ranked[..c];
    forall r ensures r in recs <==> r in ranked && Cosine(a.sqrt, query, r.vector) >= p.minScore {
      CutRecords(ranked, ScoresOf(all), p.minScore, c, r);
    }
  }

  /** Enough pages hold every record that passes the filter and is near enough
      exactly once, nearest first. */
  lemma PagesHoldEachOnce(a: Arithmetic, col: Collection, query: Vector, p: Params, n: nat) returns (recs: seq<VectorRecord>)
    requires ValidParams(p) && UniqueIds(col) && n * p.topK >= |col|
    ensures DistinctRecords(recs)
    ensures forall r :: r in recs <==> r in col && PassesFilter(r.payload, p.filters) && Cosine(a.sqrt, query, r.vector) >= p.minScore
    ensures forall i, j :: 0 <= i < j < |recs| ==> Cosine(a.sqrt, query, recs[i].vector) >= Cosine(a.sqrt, query, recs[j].vector)
    ensures var shown := Pages(a, col, query, p, n);
            |shown| == |recs|
            && forall i :: 0 <= i < |recs| ==> shown[i] == RankedResult(recs[i].id, a.round6(Cosine(a.sqrt, query, recs[i].vector)), recs[i].payload)
  {
    recs := AllResultsExactly(a, col, query, p);
    StartIs(p.topK, n);
    PagesAreAPrefix(a, col, query, p, n);
    AtMostAll(recs, col);
  }

  lemma {:induction false} AtMostAll(recs: seq<VectorRecord>, col: Collection)
    requires DistinctRecords(recs) && forall r :: r in recs ==> r in col
    ensures |recs| <= |col|
  {
    if recs != [] {
      var r := recs[|recs| - 1];
      assert r in recs;
      var k :| 0 <= k < |col| && col[k] == r;
      var others := col[..k] + col[k + 1..];
      forall q | q in recs[..|recs| - 1] ensures q in others {
        var i :| 0 <= i < |recs| - 1 && recs[i] == q;
        assert q in recs && q != r;
        var m :| 0 <= m < |col| && col[m] == q;
        assert m < k ==> others[m] == q;
        assert m > k ==> others[m - 1] == q;
      }
      AtMostAll(recs[..|recs| - 1], others);
    }
  }

  // ---- Reranked pages ----

  function IdOf(p: ScoredId): ItemId { p.0 }
  function CandidateId(c: Candidate): ItemId { c.0 }

  /** What the shortlist holds: of the records that pass the filter the 3 * (offset +
      top_k) nearest; whoever is missing is no nearer than any of that many. */
  lemma ShortlistExactly(a: Arithmetic, col: Collection, query: Vector, p: Params, r: VectorRecord)
    requires ValidParams(p) && r in col && PassesFilter(r.payload, p.filters)
    ensures var hits := Shortlist(a, col, query, p);
            && |hits| <= 3 * (p.offset + p.topK)
            && (Hit(r.id, Cosine(a.sqrt, query, r.vector), r.payload, Some(r.vector)) in hits
                || (|hits| == 3 * (p.offset + p.topK) && forall h :: h in hits ==> h.score >= Cosine(a.sqrt, query, r.vector)))
  {
    FilterExactly(r.payload, p.filters);
    SearchIsTopK(a.sqrt, col, query, p.filters, true, 3 * (p.offset + p.topK), r);
  }

  lemma {:induction false} ByIdExactly(hits: seq<Hit>, h: Hit)
    requires DistinctIds(hits) && h in hits
    ensures ById(hits, h.id) == Some(h)
  {
    var i :| 0 <= i < |hits| && hits[i] == h;
    ByIdFinds(hits, i);
  }

  /** The hit behind a reranked entry. */
  ghost predicate Behind(sqrt: real -> real, query: Vector, modifier: Option<Vector>, hits: seq<Hit>, h: Hit, entry: ScoredId) {
    h in hits && VectorOf(h) != [] && entry.0 == h.id && BlendsTo(sqrt, query, modifier, 0.5, VectorOf(h), entry.1)
  }

  ghost predicate FromHit(sqrt: real -> real, query: Vector, modifier: Option<Vector>, hits: seq<Hit>, entry: ScoredId) {
    exists h :: Behind(sqrt, query, modifier, hits, h, entry)
  }

  /** The reordered hit carries that hit's id and payload and the new score. */
  ghost predicate BecomesHit(sqrt: real -> real, query: Vector, modifier: Option<Vector>, hits: seq<Hit>, entry: ScoredId, out: Hit) {
    exists h :: Behind(sqrt, query, modifier, hits, h, entry) && out == Hit(h.id, entry.1, h.payload, None)
  }

  lemma {:induction false} ReorderExactly(sqrt: real -> real, query: Vector, modifier: Option<Vector>, hits: seq<Hit>, order: seq<ScoredId>)
    requires DistinctIds(hits) && forall i :: 0 <= i < |order| ==> FromHit(sqrt, query, modifier, hits, order[i])
    ensures |Reorder(hits, order)| == |order|
    ensures forall i :: 0 <= i < |order| ==> BecomesHit(sqrt, query, modifier, hits, order[i], Reorder(hits, order)[i])
  {
    if order != [] {
      var n := |order| - 1;
      ReorderExactly(sqrt, query, modifier, hits, order[..n]);
      assert FromHit(sqrt, query, modifier, hits, order[n]);
      var h :| Behind(sqrt, query, modifier, hits, h, order[n]);
      ByIdExactly(hits, h);
      assert Reorder(hits, order) == Reorder(hits, order[..n]) + [Hit(h.id, order[n].1, h.payload, None)];
      assert BecomesHit(sqrt, query, modifier, hits, order[n], Hit(h.id, order[n].1, h.payload, None));
      forall i | 0 <= i < n ensures BecomesHit(sqrt, query, modifier, hits, order[i], Reorder(hits, order)[i]) {
        assert order[..n][i] == order[i];
      }
    }
  }

  /** The usable candidates: one per hit with a vector. */
  lemma UsableExactly(hits: seq<Hit>, c: Candidate)
    ensures c in Filter(Candidates(hits), (d: Candidate) => d.1 != []) <==> exists h :: h in hits && VectorOf(h) != [] && c == (h.id, VectorOf(h))
  {
    var nonEmpty := (d: Candidate) => d.1 != [];
    FilterIn(Candidates(hits), nonEmpty, c);
    if c in Candidates(hits) && c.1 != [] {
      var j :| 0 <= j < |hits| && Candidates(hits)[j] == c;
      assert hits[j] in hits && c == (hits[j].id, VectorOf(hits[j]));
    }
    if h :| h in hits && VectorOf(h) != [] && c == (h.id, VectorOf(h)) {
      var j :| 0 <= j < |hits| && hits[j] == h;
      assert Candidates(hits)[j] == c;
    }
  }

  lemma UsableApart(hits: seq<Hit>)
    requires DistinctIds(hits)
    ensures Apart(Filter(Candidates(hits), (d: Candidate) => d.1 != []), CandidateId)
  {
    assert Apart(Candidates(hits), CandidateId);
    FilterKeepsApart(Candidates(hits), (d: Candidate) => d.1 != [], CandidateId);
  }

  lemma ScoredFromHit(sqrt: real -> real, query: Vector, modifier: Option<Vector>, hits: seq<Hit>, usable: seq<Candidate>, scored: seq<ScoredId>, j: nat)
    requires IsSquareRoot(sqrt) && usable == Filter(Candidates(hits), (d: Candidate) => d.1 != []) && j < |usable|
    requires Scores(sqrt, query, usable, modifier, 0.5) == Ok(scored)
    ensures |scored| == |usable| && FromHit(sqrt, query, modifier, hits, scored[j])
  {
    ScoresExactly(sqrt, query, usable, modifier, 0.5);
    UsableExactly(hits, usable[j]);
    var h :| h in hits && VectorOf(h) != [] && usable[j] == (h.id, VectorOf(h));
    assert Behind(sqrt, query, modifier, hits, h, scored[j]);
  }

  lemma UsableNonEmpty(hits: seq<Hit>)
    requires exists h :: h in hits && VectorOf(h) != []
    ensures Filter(Candidates(hits), (d: Candidate) => d.1 != []) != []
  {
    var h :| h in hits && VectorOf(h) != [];
    UsableExactly(hits, (h.id, VectorOf(h)));
  }

  /** The order the reranker answers: every hit with a vector once, by blended
      score, best first. */
  lemma OrderExactly(sqrt: real -> real, query: Vector, modifier: Option<Vector>, hits: seq<Hit>)
    requires IsSquareRoot(sqrt) && DistinctIds(hits)
    requires (exists h :: h in hits && VectorOf(h) != []) && RerankCall(sqrt, query, Candidates(hits), modifier, |hits|).Ok?
    ensures var order := RerankCall(sqrt, query, Candidates(hits), modifier, |hits|).value;
            && Descending(order, IdScore) && Apart(order, IdOf)
            && forall i :: 0 <= i < |order| ==> FromHit(sqrt, query, modifier, hits, order[i])
  {
    var usable := Filter(Candidates(hits), (d: Candidate) => d.1 != []);
    UsableNonEmpty(hits);
    OrderIsSorted(sqrt, query, modifier, hits, usable);
    var scored := Scores(sqrt, query, usable, modifier, 0.5).value;
    var order := SortDescending(scored, IdScore);
    assert Descending(order, IdScore) by { SortIsStable(scored, IdScore); }
    UsableApart(hits);
    ScoredApart(usable, scored);
    SortKeepsApart(scored, IdScore, IdOf);
    forall i | 0 <= i < |order| ensures FromHit(sqrt, query, modifier, hits, order[i]) {
      SortMembers(scored, IdScore, order[i]);
      var j :| 0 <= j < |scored| && scored[j] == order[i];
      ScoredFromHit(sqrt, query, modifier, hits, usable, scored, j);
    }
  }

  lemma OrderIsComplete(sqrt: real -> real, query: Vector, modifier: Option<Vector>, hits: seq<Hit>, h: Hit)
    requires IsSquareRoot(sqrt) && h in hits && VectorOf(h) != []
    requires RerankCall(sqrt, query, Candidates(hits), modifier, |hits|).Ok?
    ensures exists i :: 0 <= i < |RerankCall(sqrt, query, Candidates(hits), modifier, |hits|).value|
                        && RerankCall(sqrt, query, Candidates(hits), modifier, |hits|).value[i].0 == h.id
  {
    var usable := Filter(Candidates(hits), (d: Candidate) => d.1 != []);
    UsableExactly(hits, (h.id, VectorOf(h)));
    OrderIsSorted(sqrt, query, modifier, hits, usable);
    var scored := Scores(sqrt, query, usable, modifier, 0.5).value;
    var j :| 0 <= j < |usable| && usable[j] == (h.id, VectorOf(h));
    SortMembers(scored, IdScore, scored[j]);
  }

  lemma ScoredApart(usable: seq<Candidate>, scored: seq<ScoredId>)
    requires Apart(usable, CandidateId) && |scored| == |usable| && forall i :: 0 <= i < |usable| ==> scored[i].0 == usable[i].0
    ensures Apart(scored, IdOf)
  {
    forall i, j | 0 <= i < j < |scored| ensures IdOf(scored[i]) != IdOf(scored[j]) {
      assert CandidateId(usable[i]) != CandidateId(usable[j]);
    }
  }

  /** Asking for as many as were sent cuts nothing off. */
  lemma OrderIsSorted(sqrt: real -> real, query: Vector, modifier: Option<Vector>, hits: seq<Hit>, usable: seq<Candidate>)
    requires usable == Filter(Candidates(hits), (d: Candidate) => d.1 != []) && usable != []
    requires RerankCall(sqrt, query, Candidates(hits), modifier, |hits|).Ok?
    ensures Scores(sqrt, query, usable, modifier, 0.5).Ok?
    ensures RerankCall(sqrt, query, Candidates(hits), modifier, |hits|).value == SortDescending(Scores(sqrt, query, usable, modifier, 0.5).value, IdScore)
  {
    FilterShortens(Candidates(hits), (d: Candidate) => d.1 != []);
    SortIsStable(Scores(sqrt, query, usable, modifier, 0.5).value, IdScore);
  }

  lemma {:induction false} FilterShortens<T>(s: seq<T>, p: T -> bool)
    ensures |Filter(s, p)| <= |s|
  {
    if s != [] { FilterShortens(s[1..], p); }
  }

  /** The shortlisted record behind a reranked hit. */
  ghost predicate RerankedFrom(a: Arithmetic, col: Collection, query: Vector, p: Params, modifier: Option<Vector>, r: VectorRecord, h: Hit)
    requires ValidParams(p)
  {
    && r in col && PassesFilter(r.payload, p.filters) && r.vector != [] && Shortlisted(a, col, query, p, r)
    && h.id == r.id && h.payload == r.payload && BlendsTo(a.sqrt, query, modifier, 0.5, r.vector, h.score)
  }

  predicate Shortlisted(a: Arithmetic, col: Collection, query: Vector, p: Params, r: VectorRecord)
    requires ValidParams(p)
  {
    Hit(r.id, Cosine(a.sqrt, query, r.vector), r.payload, Some(r.vector)) in Shortlist(a, col, query, p)
  }

  lemma ShortlistRecord(a: Arithmetic, col: Collection, query: Vector, p: Params, h: Hit) returns (r: VectorRecord)
    requires ValidParams(p) && h in Shortlist(a, col, query, p)
    ensures r in col && PassesFilter(r.payload, p.filters) && Shortlisted(a, col, query, p, r)
    ensures h.id == r.id && h.payload == r.payload && VectorOf(h) == r.vector
  {
    RankingMeaning(a.sqrt, col, query, p.filters, true);
    assert h in Ranking(a.sqrt, col, query, p.filters, true);
    r :| r in col && Matches(r.payload, p.filters) && h == HitFor(a.sqrt, query, r, true);
    FilterExactly(r.payload, p.filters);
  }

  lemma ShortlistDistinct(a: Arithmetic, col: Collection, query: Vector, p: Params)
    requires ValidParams(p) && UniqueIds(col)
    ensures DistinctIds(Shortlist(a, col, query, p))
  {
    RankingMeaning(a.sqrt, col, query, p.filters, true);
  }

  /** The reranked hits, record by record. */
  lemma RerankedHits(a: Arithmetic, col: Collection, query: Vector, p: Params, modifier: Option<Vector>) returns (recs: seq<VectorRecord>)
    requires IsSquareRoot(a.sqrt) && ValidParams(p) && UniqueIds(col)
    requires exists h :: h in Shortlist(a, col, query, p) && VectorOf(h) != []
    requires ApplyRerank(a.sqrt, query, modifier, Shortlist(a, col, query, p)).Ok?
    ensures var hits := ApplyRerank(a.sqrt, query, modifier, Shortlist(a, col, query, p)).value;
            && Descending(hits, ScoreOf) && |recs| == |hits| && DistinctRecords(recs)
            && (forall i :: 0 <= i < |hits| ==> RerankedFrom(a, col, query, p, modifier, recs[i], hits[i]))
            && (forall r :: r in recs <==> r in col && PassesFilter(r.payload, p.filters) && r.vector != [] && Shortlisted(a, col, query, p, r))
  {
    var short := Shortlist(a, col, query, p);
    var order := RerankCall(a.sqrt, query, Candidates(short), modifier, |short|).value;
    var hits := Reorder(short, order);
    ShortlistDistinct(a, col, query, p);
    OrderExactly(a.sqrt, query, modifier, short);
    ReorderExactly(a.sqrt, query, modifier, short, order);
    recs := PickReranked(a, col, query, p, modifier, order, hits);
    RerankedInOrder(a, col, query, p, modifier, order, hits, recs);
    forall r | r in col && PassesFilter(r.payload, p.filters) && r.vector != [] && Shortlisted(a, col, query, p, r) ensures r in recs {
      var h := Hit(r.id, Cosine(a.sqrt, query, r.vector), r.payload, Some(r.vector));
      OrderIsComplete(a.sqrt, query, modifier, short, h);
      var i :| 0 <= i < |order| && order[i].0 == h.id;
      SameIdSameRecord(col, recs[i], r);
    }
  }

  lemma RerankedInOrder(a: Arithmetic, col: Collection, query: Vector, p: Params, modifier: Option<Vector>,
                        order: seq<ScoredId>, hits: seq<Hit>, recs: seq<VectorRecord>)
    requires ValidParams(p) && |order| == |hits| == |recs| && Descending(order, IdScore) && Apart(order, IdOf)
    requires forall i :: 0 <= i < |order| ==> hits[i].score == order[i].1 && recs[i].id == order[i].0
    ensures Descending(hits, ScoreOf) && DistinctRecords(recs)
  {
    forall i, j | 0 <= i < j < |hits| ensures ScoreOf(hits[i]) >= ScoreOf(hits[j]) {
      assert IdScore(order[i]) >= IdScore(order[j]);
    }
    forall i, j | 0 <= i < j < |recs| ensures recs[i].id != recs[j].id {
      assert IdOf(order[i]) != IdOf(order[j]);
    }
  }

  lemma {:induction false} PickReranked(a: Arithmetic, col: Collection, query: Vector, p: Params, modifier: Option<Vector>, order: seq<ScoredId>, hits: seq<Hit>)
    returns (recs: seq<VectorRecord>)
    requires ValidParams(p) && |order| == |hits|
    requires forall i :: 0 <= i < |order| ==> BecomesHit(a.sqrt, query, modifier, Shortlist(a, col, query, p), order[i], hits[i])
    ensures |recs| == |hits|
    ensures forall i :: 0 <= i < |hits| ==>
              RerankedFrom(a, col, query, p, modifier, recs[i], hits[i]) && hits[i].score == order[i].1 && recs[i].id == order[i].0
  {
    recs := [];
    if order != [] {
      var n := |order| - 1;
      forall i | 0 <= i < n ensures BecomesHit(a.sqrt, query, modifier, Shortlist(a, col, query, p), order[..n][i], hits[..n][i]) {
        assert order[..n][i] == order[i] && hits[..n][i] == hits[i];
      }
      recs := PickReranked(a, col, query, p, modifier, order[..n], hits[..n]);
      var r := PickOne(a, col, query, p, modifier, order[n], hits[n]);
      recs := recs + [r];
    }
  }

  lemma PickOne(a: Arithmetic, col: Collection, query: Vector, p: Params, modifier: Option<Vector>, entry: ScoredId, out: Hit) returns (r: VectorRecord)
    requires ValidParams(p) && BecomesHit(a.sqrt, query, modifier, Shortlist(a, col, query, p), entry, out)
    ensures RerankedFrom(a, col, query, p, modifier, r, out) && out.score == entry.1 && r.id == entry.0
  {
    var h :| Behind(a.sqrt, query, modifier, Shortlist(a, col, query, p), h, entry) && out == Hit(h.id, entry.1, h.payload, None);
    r := ShortlistRecord(a, col, query, p, h);
  }

  /** A reranked page: with `recs` the shortlisted records that have a vector, best
      blend of query and modifier first, and `c` of them good enough, the page shows
      results offset, ..., offset + top_k - 1 of those `c`, each with its own id,
      rounded blend and payload. */
  lemma RerankedPageExactly(a: Arithmetic, col: Collection, query: Vector, p: Params, modifier: Option<Vector>)
    returns (recs: seq<VectorRecord>, scores: seq<real>, c: nat)
    requires IsSquareRoot(a.sqrt) && ValidParams(p) && UniqueIds(col)
    requires exists h :: h in Shortlist(a, col, query, p) && VectorOf(h) != []
    requires Pipeline(a, col, query, p, true, modifier).Ok?
    ensures DistinctRecords(recs)
    ensures forall r :: r in recs <==> r in col && PassesFilter(r.payload, p.filters) && r.vector != [] && Shortlisted(a, col, query, p, r)
    ensures |scores| == |recs| && forall i :: 0 <= i < |recs| ==> BlendsTo(a.sqrt, query, modifier, 0.5, recs[i].vector, scores[i])
    ensures forall i, j :: 0 <= i < j < |scores| ==> scores[i] >= scores[j]
    ensures CutAt(scores, p.minScore, c)
    ensures ShowsRecords(a.round6, Pipeline(a, col, query, p, true, modifier).value, recs, scores, c, p)
  {
    var hits := ApplyRerank(a.sqrt, query, modifier, Shortlist(a, col, query, p)).value;
    recs := RerankedHits(a, col, query, p, modifier);
    scores := ScoresOf(hits);
    forall i, j | 0 <= i < j < |scores| ensures scores[i] >= scores[j] { assert ScoreOf(hits[i]) >= ScoreOf(hits[j]); }
    c := PageOfHits(a.round6, hits, recs, p);
  }

  /** The modifier steers a composed search: of two shortlisted records equally near
      to the query, the one nearer to the modifier comes strictly first; whenever
      the first page shows the other one, it shows this one before it. */
  lemma ModifierSteers(a: Arithmetic, col: Collection, query: Vector, p: Params, modifier: Vector, x: VectorRecord, y: VectorRecord, q: nat) returns (u: nat)
    requires IsSquareRoot(a.sqrt) && ValidParams(p) && UniqueIds(col) && p.offset == 0
    requires Pipeline(a, col, query, p, true, Some(modifier)).Ok?
    requires x in col && PassesFilter(x.payload, p.filters) && x.vector != [] && Shortlisted(a, col, query, p, x)
    requires y in col && PassesFilter(y.payload, p.filters) && y.vector != [] && Shortlisted(a, col, query, p, y)
    requires NearerModifier(a.sqrt, query, modifier, x.vector, y.vector)
    requires q < |Pipeline(a, col, query, p, true, Some(modifier)).value| && Pipeline(a, col, query, p, true, Some(modifier)).value[q].itemId == y.id
    ensures u < q && Pipeline(a, col, query, p, true, Some(modifier)).value[u].itemId == x.id
  {
    assert VectorOf(Hit(x.id, Cosine(a.sqrt, query, x.vector), x.payload, Some(x.vector))) != [];
    var recs, scores, c := RerankedPageExactly(a, col, query, p, Some(modifier));
    u := BestFirst(a, query, p, modifier, Pipeline(a, col, query, p, true, Some(modifier)).value, recs, scores, c, x, y, q);
  }

  lemma BestFirst(a: Arithmetic, query: Vector, p: Params, modifier: Vector, page: seq<RankedResult>,
                  recs: seq<VectorRecord>, scores: seq<real>, c: nat, x: VectorRecord, y: VectorRecord, q: nat) returns (u: nat)
    requires ValidParams(p) && p.offset == 0 && |scores| == |recs| && DistinctRecords(recs) && x in recs && y in recs
    requires forall i :: 0 <= i < |recs| ==> BlendsTo(a.sqrt, query, Some(modifier), 0.5, recs[i].vector, scores[i])
    requires forall i, j :: 0 <= i < j < |scores| ==> scores[i] >= scores[j]
    requires CutAt(scores, p.minScore, c) && ShowsRecords(a.round6, page, recs, scores, c, p)
    requires NearerModifier(a.sqrt, query, modifier, x.vector, y.vector) && q < |page| && page[q].itemId == y.id
    ensures u < q && page[u].itemId == x.id
  {
    u :| 0 <= u < |recs| && recs[u] == x;
    var v :| 0 <= v < |recs| && recs[v] == y;
    assert recs[q].id == recs[v].id;
    NearerScoresHigher(0.5, Cosine(a.sqrt, query, x.vector), Cosine(a.sqrt, modifier, x.vector), Cosine(a.sqrt, modifier, y.vector), scores[u], scores[v]);
  }
}
