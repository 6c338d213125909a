/** The search path of query-service without its caches: fetch, optionally
    rerank, keep what scores enough, cut the page. */
module SearchPipeline {
  import opened Common
  import opened VectorMath
  import opened Sorting
  import opened VectorStore
  import opened Reranking

  // ---- Parameters ----

  const MAX_TOP_K := 100
  const RERANK_MULTIPLIER := 3
  const DEFAULT_MODIFIER_WEIGHT := 0.5

  datatype Params = Params(topK: int, offset: int, minScore: real, filters: map<string, Json>)

  /** What constructing `SearchParameters` enforces. */
  predicate ValidParams(p: Params) {
    1 <= p.topK <= MAX_TOP_K && 0 <= p.offset && 0.0 <= p.minScore <= 1.0
  }

  datatype RankedResult = RankedResult(itemId: ItemId, score: real, payload: map<string, Json>)

  /** The two real functions the pipeline is built on: the square root and
      `round(x, 6)`. */
  datatype Arithmetic = Arithmetic(sqrt: real -> real, round6: real -> real)

  // ---- The stages ----

  function Fetch(p: Params, willRerank: bool): nat
    requires ValidParams(p)
  {
    (p.topK + p.offset) * (if willRerank then RERANK_MULTIPLIER else 1)
  }

  function Candidates(hits: seq<Hit>): seq<Candidate> {
    seq(|hits|, i requires 0 <= i < |hits| =>
      (hits[i].id, if hits[i].vector.Some? then hits[i].vector.value else []))
  }

  /** `AiServiceReranker.rerank`: candidates without a vector stay behind; if
      none is left the incoming order is kept with score 0. */
  function RerankCall(sqrt: real -> real, query: Vector, candidates: seq<Candidate>, modifier: Option<Vector>, topK: nat)
    : Result<seq<ScoredId>, RerankError>
  {
    var usable := Filter(candidates, (c: Candidate) => c.1 != []);
    if usable == [] then Ok(seq(|candidates|, i requires 0 <= i < |candidates| => (candidates[i].0, 0.0)))
    else Reranked(sqrt, query, usable, modifier, DEFAULT_MODIFIER_WEIGHT, Some(topK))
  }

  /** `{h.item_id: h for h in hits}.get(id)`: the last one wins. */
  function ById(hits: seq<Hit>, id: ItemId): Option<Hit> {
    if hits == [] then None
    else if hits[|hits| - 1].id == id then Some(hits[|hits| - 1])
    else ById(hits[..|hits| - 1], id)
  }

  function Reorder(hits: seq<Hit>, order: seq<ScoredId>): seq<Hit> {
    if order == [] then []
    else
      var front, last := Reorder(hits, order[..|order| - 1]), order[|order| - 1];
      match ById(hits, last.0)
      case None => front
      case Some(h) => front + [Hit(h.id, last.1, h.payload, None)]
  }

  function ApplyRerank(sqrt: real -> real, query: Vector, modifier: Option<Vector>, hits: seq<Hit>): Result<seq<Hit>, RerankError> {
    match RerankCall(sqrt, query, Candidates(hits), modifier, |hits|)
    case Err(e) => Err(e)
    case Ok(order) => Ok(Reorder(hits, order))
  }

  /** The hits that score enough, as results. */
  function Kept(round6: real -> real, hits: seq<Hit>, minScore: real): seq<RankedResult> {
    if hits == [] then []
    else
      var front, h := Kept(round6, hits[..|hits| - 1], minScore), hits[|hits| - 1];
      if h.score >= minScore then front + [RankedResult(h.id, round6(h.score), h.payload)] else front
  }

  function Page(round6: real -> real, hits: seq<Hit>, p: Params): seq<RankedResult>
    requires ValidParams(p)
  {
    Slice(Kept(round6, hits, p.minScore), p.offset, p.offset + p.topK)
  }

  function Pipeline(a: Arithmetic, col: Collection, query: Vector, p: Params, willRerank: bool, modifier: Option<Vector>)
    : Result<seq<RankedResult>, RerankError>
    requires ValidParams(p)
  {
    var hits := Take(Ranking(a.sqrt, col, query, p.filters, willRerank), Fetch(p, willRerank));
    if willRerank && hits != [] then
      match ApplyRerank(a.sqrt, query, modifier, hits)
      case Err(e) => Err(e)
      case Ok(reordered) => Ok(Page(a.round6, reordered, p))
    else Ok(Page(a.round6, hits, p))
  }

  // ---- Paging ----

  /** Reference: every result there is, best first. */
  function AllResults(a: Arithmetic, col: Collection, query: Vector, minScore: real, filters: map<string, Json>): seq<RankedResult> {
    Kept(a.round6, Ranking(a.sqrt, col, query, filters, false), minScore)
  }

  lemma {:induction false} KeptBelow(round6: real -> real, hits: seq<Hit>, minScore: real)
    requires forall h :: h in hits ==> h.score < minScore
    ensures Kept(round6, hits, minScore) == []
  {
    if hits != [] { KeptBelow(round6, hits[..|hits| - 1], minScore); }
  }

  lemma {:induction false} KeptAppend(round6: real -> real, s: seq<Hit>, t: seq<Hit>, minScore: real)
    ensures Kept(round6, s + t, minScore) == Kept(round6, s, minScore) + Kept(round6, t, minScore)
  {
    if t == [] {
      assert s + t == s;
    } else {
      assert (s + t)[..|s + t| - 1] == s + t[..|t| - 1];
      KeptAppend(round6, s, t[..|t| - 1], minScore);
    }
  }

  /** On a descending ranking the score filter keeps a prefix, so cutting before
      or after filtering agree. */
  lemma {:induction false} KeptOfPrefix(round6: real -> real, hits: seq<Hit>, n: nat, minScore: real)
    requires Descending(hits, ScoreOf) && n <= |hits|
    ensures Kept(round6, hits[..n], minScore) == Take(Kept(round6, hits, minScore), n)
    ensures |Kept(round6, hits[..n], minScore)| == n || Kept(round6, hits[..n], minScore) == Kept(round6, hits, minScore)
  {
    assert hits == hits[..n] + hits[n..];
    KeptAppend(round6, hits[..n], hits[n..], minScore);
    KeptLength(round6, hits[..n], minScore);
    if n < |hits| && hits[n].score >= minScore {
      AllAbove(hits, n, minScore);
      KeptAll(round6, hits[..n], minScore);
    } else {
      AllBelow(hits, n, minScore);
      KeptBelow(round6, hits[n..], minScore);
    }
  }

  lemma AllAbove(hits: seq<Hit>, n: nat, minScore: real)
    requires Descending(hits, ScoreOf) && n < |hits| && hits[n].score >= minScore
    ensures forall i :: 0 <= i < n ==> hits[i].score >= minScore
  {
    forall i | 0 <= i < n ensures hits[i].score >= minScore { assert ScoreOf(hits[i]) >= ScoreOf(hits[n]); }
  }

  lemma AllBelow(hits: seq<Hit>, n: nat, minScore: real)
    requires Descending(hits, ScoreOf) && n <= |hits| && (n < |hits| ==> hits[n].score < minScore)
    ensures forall h :: h in hits[n..] ==> h.score < minScore
  {
    forall h | h in hits[n..] ensures h.score < minScore {
      var i :| n <= i < |hits| && hits[i] == h;
      assert ScoreOf(hits[n]) >= ScoreOf(hits[i]);
    }
  }

  lemma {:induction false} KeptLength(round6: real -> real, hits: seq<Hit>, minScore: real)
    ensures |Kept(round6, hits, minScore)| <= |hits|
  {
    if hits != [] { KeptLength(round6, hits[..|hits| - 1], minScore); }
  }

  lemma {:induction false} KeptAll(round6: real -> real, hits: seq<Hit>, minScore: real)
    requires forall i :: 0 <= i < |hits| ==> hits[i].score >= minScore
    ensures |Kept(round6, hits, minScore)| == |hits|
  {
    if hits != [] { KeptAll(round6, hits[..|hits| - 1], minScore); }
  }

  lemma SliceOfPrefix<T>(s: seq<T>, n: nat, lo: nat, hi: nat)
    requires lo <= hi <= n
    ensures Slice(Take(s, n), lo, hi) == Slice(s, lo, hi)
  {
    if n <= |s| { assert s[..n][..hi] == s[..hi]; }
  }

  lemma PageOfPrefix(round6: real -> real, hits: seq<Hit>, n: nat, p: Params)
    requires ValidParams(p) && Descending(hits, ScoreOf) && p.offset + p.topK <= n
    ensures Page(round6, Take(hits, n), p) == Page(round6, hits, p)
  {
    if n < |hits| {
      KeptOfPrefix(round6, hits, n, p.minScore);
      SliceOfPrefix(Kept(round6, hits, p.minScore), n, p.offset, p.offset + p.topK);
    } else {
      assert Take(hits, n) == hits;
    }
  }

  /** Fetching only `offset + top_k` hits loses nothing: the fast path's page is
      that slice of the full filtered ranking. */
  lemma PagingLossless(a: Arithmetic, col: Collection, query: Vector, p: Params, modifier: Option<Vector>)
    requires ValidParams(p)
    ensures Pipeline(a, col, query, p, false, modifier)
            == Ok(Slice(AllResults(a, col, query, p.minScore, p.filters), p.offset, p.offset + p.topK))
  {
    RankingMeaning(a.sqrt, col, query, p.filters, false);
    PageOfPrefix(a.round6, Ranking(a.sqrt, col, query, p.filters, false), Fetch(p, false), p);
  }

  /** Two consecutive pages are the larger page cut in two: no gap, no repeat. */
  lemma PagesConcatenate(a: Arithmetic, col: Collection, query: Vector, p: Params, next: int)
    requires ValidParams(p) && 1 <= next && p.topK + next <= MAX_TOP_K
    ensures var first := Pipeline(a, col, query, p, false, None);
            var second := Pipeline(a, col, query, p.(topK := next, offset := p.offset + p.topK), false, None);
            var both := Pipeline(a, col, query, p.(topK := p.topK + next), false, None);
            first.Ok? && second.Ok? && both == Ok(first.value + second.value)
  {
    PagingLossless(a, col, query, p, None);
    PagingLossless(a, col, query, p.(topK := next, offset := p.offset + p.topK), None);
    PagingLossless(a, col, query, p.(topK := p.topK + next), None);
    var all := AllResults(a, col, query, p.minScore, p.filters);
    SlicesConcatenate(all, p.offset, p.offset + p.topK, p.offset + p.topK + next);
  }

  lemma SlicesConcatenate<T>(s: seq<T>, i: nat, j: nat, k: nat)
    requires i <= j <= k
    ensures Slice(s, i, j) + Slice(s, j, k) == Slice(s, i, k)
  {
  }

  // ---- Precise mode without a modifier ----

  function Strip(h: Hit): Hit { h.(vector := None) }

  function StripAll(hits: seq<Hit>): seq<Hit> {
    seq(|hits|, i requires 0 <= i < |hits| => Strip(hits[i]))
  }

  /** Asking for vectors changes nothing but the vector field. */
  lemma {:induction false} HitsStripped(sqrt: real -> real, col: Collection, query: Vector, filters: map<string, Json>)
    ensures StripAll(Hits(sqrt, col, query, filters, true)) == Hits(sqrt, col, query, filters, false)
  {
    if col != [] {
      HitsStripped(sqrt, col[..|col| - 1], query, filters);
    }
  }

  lemma {:induction false} InsertStripped(h: Hit, s: seq<Hit>)
    ensures StripAll(Insert(h, s, ScoreOf)) == Insert(Strip(h), StripAll(s), ScoreOf)
  {
    if s == [] || h.score >= s[0].score {
      assert StripAll([h] + s) == [Strip(h)] + StripAll(s);
    } else {
      InsertStripped(h, s[1..]);
      assert StripAll(s)[1..] == StripAll(s[1..]);
      assert StripAll([s[0]] + Insert(h, s[1..], ScoreOf)) == [Strip(s[0])] + StripAll(Insert(h, s[1..], ScoreOf));
    }
  }

  lemma {:induction false} SortStripped(s: seq<Hit>)
    ensures StripAll(SortDescending(s, ScoreOf)) == SortDescending(StripAll(s), ScoreOf)
  {
    if s != [] {
      SortStripped(s[1..]);
      InsertStripped(s[0], SortDescending(s[1..], ScoreOf));
      assert StripAll(s)[1..] == StripAll(s[1..]);
    }
  }

  lemma RankingStripped(sqrt: real -> real, col: Collection, query: Vector, filters: map<string, Json>)
    ensures StripAll(Ranking(sqrt, col, query, filters, true)) == Ranking(sqrt, col, query, filters, false)
  {
    HitsStripped(sqrt, col, query, filters);
    SortStripped(Hits(sqrt, col, query, filters, true));
  }

  lemma {:induction false} FilterEverything<T>(s: seq<T>, p: T -> bool)
    requires forall i :: 0 <= i < |s| ==> p(s[i])
    ensures Filter(s, p) == s
  {
    if s != [] {
      FilterEverything(s[1..], p);
      assert s == [s[0]] + s[1..];
    }
  }

  lemma {:induction false} ByIdFinds(hits: seq<Hit>, i: nat)
    requires i < |hits| && DistinctIds(hits)
    ensures ById(hits, hits[i].id) == Some(hits[i])
  {
    if i < |hits| - 1 {
      ByIdFinds(hits[..|hits| - 1], i);
    }
  }

  /** Putting hits back in their own order, with their own scores. */
  lemma {:induction false} ReorderInOrder(hits: seq<Hit>, order: seq<ScoredId>)
    requires DistinctIds(hits) && |order| <= |hits|
    requires forall i :: 0 <= i < |order| ==> order[i] == (hits[i].id, hits[i].score)
    ensures Reorder(hits, order) == StripAll(hits[..|order|])
  {
    if order != [] {
      var n := |order| - 1;
      ReorderInOrder(hits, order[..n]);
      ByIdFinds(hits, n);
      assert StripAll(hits[..n + 1]) == StripAll(hits[..n]) + [Strip(hits[n])];
    }
  }

  ghost predicate ScoredByCosine(sqrt: real -> real, query: Vector, hits: seq<Hit>) {
    forall i :: 0 <= i < |hits| ==>
      && hits[i].vector.Some? && hits[i].vector.value != [] && |hits[i].vector.value| == |query|
      && hits[i].score == Cosine(sqrt, query, hits[i].vector.value)
  }

  /** Reranking a shortlist that is already in cosine order moves nothing. */
  lemma RerankIsIdentity(sqrt: real -> real, query: Vector, hits: seq<Hit>)
    requires IsSquareRoot(sqrt) && hits != []
    requires Descending(hits, ScoreOf) && DistinctIds(hits) && ScoredByCosine(sqrt, query, hits)
    ensures ApplyRerank(sqrt, query, None, hits) == Ok(StripAll(hits))
  {
    var cands := Candidates(hits);
    FilterEverything(cands, (c: Candidate) => c.1 != []);
    var scored := AllScores(sqrt, query, cands, None, DEFAULT_MODIFIER_WEIGHT);
    forall i | 0 <= i < |hits| ensures scored[i] == (hits[i].id, hits[i].score) {
      UnitDotIsCosine(sqrt, query, cands[i].1);
    }
    assert Descending(scored, IdScore) by {
      forall i, j | 0 <= i < j < |scored| ensures IdScore(scored[i]) >= IdScore(scored[j]) {
        assert ScoreOf(hits[i]) >= ScoreOf(hits[j]);
      }
    }
    SortOfSorted(scored, IdScore);
    assert Scores(sqrt, query, cands, None, DEFAULT_MODIFIER_WEIGHT) == Ok(scored);
    assert Take(scored, |hits|) == scored;
    ReorderInOrder(hits, scored);
    assert hits[..|scored|] == hits;
  }

  /** The hits precise mode rescores. */
  function Shortlist(a: Arithmetic, col: Collection, query: Vector, p: Params): seq<Hit>
    requires ValidParams(p)
  {
    Take(Ranking(a.sqrt, col, query, p.filters, true), Fetch(p, true))
  }

  function VectorOf(h: Hit): Vector { if h.vector.Some? then h.vector.value else [] }

  /** Every shortlisted vector is comparable with the query and not empty. */
  ghost predicate FitsQuery(shortlist: seq<Hit>, query: Vector) {
    forall h :: h in shortlist ==> VectorOf(h) != [] && |VectorOf(h)| == |query|
  }

  lemma RerankFailsExactly(sqrt: real -> real, query: Vector, modifier: Option<Vector>, hits: seq<Hit>)
    ensures ApplyRerank(sqrt, query, modifier, hits).Err?
            <==> exists h :: h in hits && VectorOf(h) != [] && !Comparable(query, modifier, VectorOf(h))
  {
    var cands := Candidates(hits);
    var nonEmpty := (c: Candidate) => c.1 != [];
    var usable := Filter(cands, nonEmpty);
    if i :| 0 <= i < |usable| && !Comparable(query, modifier, usable[i].1) {
      FilterIn(cands, nonEmpty, usable[i]);
      var j :| 0 <= j < |cands| && cands[j] == usable[i];
      assert hits[j] in hits && VectorOf(hits[j]) == usable[i].1;
    }
    if h :| h in hits && VectorOf(h) != [] && !Comparable(query, modifier, VectorOf(h)) {
      var j :| 0 <= j < |hits| && hits[j] == h;
      assert cands[j] == (h.id, VectorOf(h)) && cands[j] in cands;
      FilterIn(cands, nonEmpty, cands[j]);
      var i :| 0 <= i < |usable| && usable[i] == cands[j];
      assert !Comparable(query, modifier, usable[i].1);
    }
  }

  /** Precise mode fails exactly when some shortlisted non-empty vector has another
      length than the query or the modifier. */
  lemma PreciseFailsExactly(a: Arithmetic, col: Collection, query: Vector, p: Params, modifier: Option<Vector>)
    requires ValidParams(p)
    ensures Pipeline(a, col, query, p, true, modifier).Err?
            <==> exists h :: h in Shortlist(a, col, query, p) && VectorOf(h) != [] && !Comparable(query, modifier, VectorOf(h))
  {
    RerankFailsExactly(a.sqrt, query, modifier, Shortlist(a, col, query, p));
  }

  /** Precise mode without a modifier is the fast path: tripling the shortlist,
      rescoring and sorting again give the same ids, order and scores. */
  lemma PreciseIsFast(a: Arithmetic, col: Collection, query: Vector, p: Params)
    requires IsSquareRoot(a.sqrt) && ValidParams(p)
    requires UniqueIds(col) && FitsQuery(Shortlist(a, col, query, p), query)
    ensures Pipeline(a, col, query, p, true, None) == Pipeline(a, col, query, p, false, None)
  {
    var all := Ranking(a.sqrt, col, query, p.filters, true);
    var plain := Ranking(a.sqrt, col, query, p.filters, false);
    var hits := Take(all, Fetch(p, true));
    RankingMeaning(a.sqrt, col, query, p.filters, true);
    RankingMeaning(a.sqrt, col, query, p.filters, false);
    RankingStripped(a.sqrt, col, query, p.filters);
    assert StripAll(hits) == Take(plain, Fetch(p, true));
    PageOfPrefix(a.round6, plain, Fetch(p, true), p);
    PageOfPrefix(a.round6, plain, Fetch(p, false), p);
    if hits != [] {
      assert ScoredByCosine(a.sqrt, query, hits) by {
        forall i | 0 <= i < |hits|
          ensures hits[i].vector.Some? && hits[i].vector.value != [] && |hits[i].vector.value| == |query|
                  && hits[i].score == Cosine(a.sqrt, query, hits[i].vector.value)
        {
          assert all[i] in all && hits[i] in hits;
        }
      }
      RerankIsIdentity(a.sqrt, query, hits);
    }
  }
}
