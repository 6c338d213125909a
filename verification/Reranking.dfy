/** The rerank stage of ai-service: cosine scores, optionally blended with a
    modifier vector, sorted best first. */
module Reranking {
  import opened Common
  import opened VectorMath
  import opened Sorting

  type Candidate = (ItemId, Vector)
  type ScoredId = (ItemId, real)

  datatype RerankError = EmptyBatch | DimensionMismatch

  function IdScore(p: ScoredId): real { p.1 }

  /** `min(max(w, 0), 1)`, and zero when there is no modifier. */
  function Weight(modifier: Option<Vector>, w: real): real {
    if modifier.None? || w < 0.0 then 0.0 else if w > 1.0 then 1.0 else w
  }

  function BlendScore(sqrt: real -> real, query: Vector, modifier: Option<Vector>, w: real, vec: Vector): real {
    var score := Dot(Unit(sqrt, query), Unit(sqrt, vec));
    match modifier
    case None => score
    case Some(m) => Mix(Weight(modifier, w), score, Dot(Unit(sqrt, m), Unit(sqrt, vec)))
  }

  function Mix(w: real, x: real, y: real): real { (1.0 - w) * x + w * y }

  predicate Comparable(query: Vector, modifier: Option<Vector>, vec: Vector) {
    |vec| == |query| && (modifier.Some? ==> |modifier.value| == |vec|)
  }

  function AllScores(sqrt: real -> real, query: Vector, candidates: seq<Candidate>, modifier: Option<Vector>, w: real): seq<ScoredId> {
    seq(|candidates|, i requires 0 <= i < |candidates| =>
      (candidates[i].0, BlendScore(sqrt, query, modifier, w, candidates[i].1)))
  }

  function Scores(sqrt: real -> real, query: Vector, candidates: seq<Candidate>, modifier: Option<Vector>, w: real)
    : Result<seq<ScoredId>, RerankError>
  {
    if forall i :: 0 <= i < |candidates| ==> Comparable(query, modifier, candidates[i].1)
    then Ok(AllScores(sqrt, query, candidates, modifier, w))
    else Err(DimensionMismatch)
  }

  /** `RerankShortlist.execute` */
  function Reranked(sqrt: real -> real, query: Vector, candidates: seq<Candidate>, modifier: Option<Vector>, w: real, topK: Option<nat>)
    : Result<seq<ScoredId>, RerankError>
  {
    if candidates == [] then Err(EmptyBatch)
    else match Scores(sqrt, query, candidates, modifier, w)
      case Err(e) => Err(e)
      case Ok(scored) =>
        var sorted := SortDescending(scored, IdScore);
        Ok(if topK.Some? then Take(sorted, topK.value) else sorted)
  }

  /** `CosineBlendReranker` */
  class CosineBlendReranker {
    const sqrt: real -> real

    constructor (sqrt: real -> real)
      ensures this.sqrt == sqrt
    {
      this.sqrt := sqrt;
    }

    method Score(query: Vector, candidates: seq<Candidate>, modifier: Option<Vector>, modifierWeight: real)
      returns (out: Result<seq<ScoredId>, RerankError>)
      ensures out == Scores(sqrt, query, candidates, modifier, modifierWeight)
    {
      var unitQuery := Unit(sqrt, query);
      var weight := Weight(modifier, modifierWeight);
      var scored: seq<ScoredId> := [];
      for i := 0 to |candidates|
        invariant |scored| == i
        invariant forall j :: 0 <= j < i ==> Comparable(query, modifier, candidates[j].1)
        invariant forall j :: 0 <= j < i ==>
                    scored[j] == (candidates[j].0, BlendScore(sqrt, query, modifier, modifierWeight, candidates[j].1))
      {
        var unitCandidate := Unit(sqrt, candidates[i].1);
        if |unitCandidate| != |unitQuery| {
          return Err(DimensionMismatch);
        }
        var score := Dot(unitQuery, unitCandidate);
        if modifier.Some? {
          if |modifier.value| != |unitCandidate| {
            return Err(DimensionMismatch);
          }
          score := Mix(weight, score, Dot(Unit(sqrt, modifier.value), unitCandidate));
        }
        scored := scored + [(candidates[i].0, score)];
      }
      assert scored == AllScores(sqrt, query, candidates, modifier, modifierWeight);
      out := Ok(scored);
    }

    method Execute(query: Vector, candidates: seq<Candidate>, modifier: Option<Vector>, modifierWeight: real, topK: Option<nat>)
      returns (out: Result<seq<ScoredId>, RerankError>)
      ensures out == Reranked(sqrt, query, candidates, modifier, modifierWeight, topK)
    {
      if candidates == [] {
        return Err(EmptyBatch);
      }
      var scored := Score(query, candidates, modifier, modifierWeight);
      if scored.Err? {
        return scored;
      }
      var items := SortDescending(scored.value, IdScore);
      if topK.Some? {
        items := Take(items, topK.value);
      }
      out := Ok(items);
    }
  }

  lemma Convex(w: real, x: real, y: real)
    requires 0.0 <= w <= 1.0 && -1.0 <= x <= 1.0 && -1.0 <= y <= 1.0
    ensures -1.0 <= Mix(w, x, y) <= 1.0
  {
    NonNegativeProduct(w, 1.0 - y);
    NonNegativeProduct(w, 1.0 + y);
    NonNegativeProduct(1.0 - w, 1.0 - x);
    NonNegativeProduct(1.0 - w, 1.0 + x);
  }

  /** Whatever weight a caller passes, a plain or blended score is in [-1, 1]. */
  lemma BlendScoreBounded(sqrt: real -> real, query: Vector, modifier: Option<Vector>, w: real, vec: Vector)
    requires IsSquareRoot(sqrt)
    ensures -1.0 <= BlendScore(sqrt, query, modifier, w, vec) <= 1.0
  {
    var plain := Dot(Unit(sqrt, query), Unit(sqrt, vec));
    assert -1.0 <= plain <= 1.0 by { UnitDotBounded(sqrt, query, vec); }
    if modifier.Some? {
      var blended := Dot(Unit(sqrt, modifier.value), Unit(sqrt, vec));
      assert -1.0 <= blended <= 1.0 by { UnitDotBounded(sqrt, modifier.value, vec); }
      Convex(Weight(modifier, w), plain, blended);
    }
  }

  lemma {:induction false} SortedScores(sqrt: real -> real, query: Vector, candidates: seq<Candidate>, modifier: Option<Vector>, w: real)
    requires IsSquareRoot(sqrt)
    ensures var sorted := SortDescending(AllScores(sqrt, query, candidates, modifier, w), IdScore);
            && Descending(sorted, IdScore)
            && |sorted| == |candidates|
            && forall p :: p in sorted ==> -1.0 <= p.1 <= 1.0
  {
    var scored := AllScores(sqrt, query, candidates, modifier, w);
    SortIsStable(scored, IdScore);
    var sorted := SortDescending(scored, IdScore);
    forall p | p in sorted ensures -1.0 <= p.1 <= 1.0 {
      assert p in multiset(scored);
      var i :| 0 <= i < |scored| && scored[i] == p;
      BlendScoreBounded(sqrt, query, modifier, w, candidates[i].1);
    }
  }

  /** The reranker answers exactly when there is a candidate and every length
      fits; the answer is in order, bounded, and as long as asked for. */
  lemma {:induction false} RerankedMeaning(sqrt: real -> real, query: Vector, candidates: seq<Candidate>, modifier: Option<Vector>, w: real, topK: Option<nat>)
    requires IsSquareRoot(sqrt)
    ensures var r := Reranked(sqrt, query, candidates, modifier, w, topK);
            && (r.Ok? <==> candidates != [] && forall i :: 0 <= i < |candidates| ==> Comparable(query, modifier, candidates[i].1))
            && (r.Ok? ==>
                  && Descending(r.value, IdScore)
                  && (forall p :: p in r.value ==> -1.0 <= p.1 <= 1.0)
                  && |r.value| == (if topK.Some? && topK.value < |candidates| then topK.value else |candidates|))
  {
    SortedScores(sqrt, query, candidates, modifier, w);
    var r := Reranked(sqrt, query, candidates, modifier, w, topK);
    if r.Ok? {
      var sorted := SortDescending(AllScores(sqrt, query, candidates, modifier, w), IdScore);
      assert r.value == if topK.Some? then Take(sorted, topK.value) else sorted;
    }
  }

  // ---- The score in terms of cosines ----

  /** The blend of a query cosine `x` and a modifier cosine `y`: the former for a
      weight of at most zero, the latter from a weight of one on, and the mean
      weighted by `w` in between. */
  predicate Blended(w: real, x: real, y: real, score: real) {
    if w <= 0.0 then score == x else if w >= 1.0 then score == y else score == Times(1.0 - w, x) + Times(w, y)
  }

  /** Plain cosine without a modifier, else the blend. */
  predicate BlendsTo(sqrt: real -> real, query: Vector, modifier: Option<Vector>, w: real, vec: Vector, score: real) {
    match modifier
    case None => score == Cosine(sqrt, query, vec)
    case Some(m) => Blended(w, Cosine(sqrt, query, vec), Cosine(sqrt, m, vec), score)
  }

  lemma MixExactly(w: real, x: real, y: real)
    ensures Mix(0.0, x, y) == x && Mix(1.0, x, y) == y && Mix(w, x, y) == (1.0 - w) * x + w * y
  {
  }

  lemma BlendExactly(sqrt: real -> real, query: Vector, modifier: Option<Vector>, w: real, vec: Vector)
    requires IsSquareRoot(sqrt)
    ensures BlendsTo(sqrt, query, modifier, w, vec, BlendScore(sqrt, query, modifier, w, vec))
  {
    var x := Dot(Unit(sqrt, query), Unit(sqrt, vec));
    assert x == Cosine(sqrt, query, vec) by { UnitDotIsCosine(sqrt, query, vec); }
    if modifier.Some? {
      var y := Dot(Unit(sqrt, modifier.value), Unit(sqrt, vec));
      assert y == Cosine(sqrt, modifier.value, vec) by { UnitDotIsCosine(sqrt, modifier.value, vec); }
      MixExactly(w, x, y);
    }
  }

  /** Each candidate is answered once, in the order given, with that score. */
  lemma ScoresExactly(sqrt: real -> real, query: Vector, candidates: seq<Candidate>, modifier: Option<Vector>, w: real)
    requires IsSquareRoot(sqrt) && Scores(sqrt, query, candidates, modifier, w).Ok?
    ensures var out := Scores(sqrt, query, candidates, modifier, w).value;
            |out| == |candidates|
            && forall i :: 0 <= i < |candidates| ==> out[i].0 == candidates[i].0 && BlendsTo(sqrt, query, modifier, w, candidates[i].1, out[i].1)
  {
    forall i | 0 <= i < |candidates|
      ensures BlendsTo(sqrt, query, modifier, w, candidates[i].1, Scores(sqrt, query, candidates, modifier, w).value[i].1)
    {
      BlendExactly(sqrt, query, modifier, w, candidates[i].1);
    }
  }

  /** `b` is as near to the query as `c`, and nearer to the modifier. */
  predicate NearerModifier(sqrt: real -> real, query: Vector, modifier: Vector, b: Vector, c: Vector) {
    Cosine(sqrt, query, b) == Cosine(sqrt, query, c) && Cosine(sqrt, modifier, b) > Cosine(sqrt, modifier, c)
  }

  lemma TimesGrows(w: real, y: real, z: real)
    requires w > 0.0 && y > z
    ensures Times(w, y) > Times(w, z)
  {
    PositiveProduct(w, y - z);
    assert Times(w, y) == Times(w, z) + Times(w, y - z);
  }

  /** The modifier steers: for every positive weight it separates what the query
      does not. */
  lemma NearerScoresHigher(w: real, x: real, y: real, z: real, sb: real, sc: real)
    requires w > 0.0 && y > z && Blended(w, x, y, sb) && Blended(w, x, z, sc)
    ensures sb > sc
  {
    if w < 1.0 { TimesGrows(w, y, z); }
  }

  /** And the nearer candidate ranks strictly before the other one, cut off last. */
  lemma NearerRanksFirst(sqrt: real -> real, query: Vector, candidates: seq<Candidate>, modifier: Vector, w: real, topK: Option<nat>, i: nat, j: nat)
    requires IsSquareRoot(sqrt) && i < |candidates| && j < |candidates| && w > 0.0
    requires NearerModifier(sqrt, query, modifier, candidates[i].1, candidates[j].1)
    requires Reranked(sqrt, query, candidates, Some(modifier), w, topK).Ok?
    ensures var out, scored := Reranked(sqrt, query, candidates, Some(modifier), w, topK).value, Scores(sqrt, query, candidates, Some(modifier), w).value;
            && |scored| == |candidates|
            && (forall p, q :: 0 <= p < |out| && 0 <= q < |out| && out[p] == scored[i] && out[q] == scored[j] ==> p < q)
            && (scored[j] in out ==> scored[i] in out)
  {
    var out, scored := Reranked(sqrt, query, candidates, Some(modifier), w, topK).value, Scores(sqrt, query, candidates, Some(modifier), w).value;
    ScoresExactly(sqrt, query, candidates, Some(modifier), w);
    NearerScoresHigher(w, Cosine(sqrt, query, candidates[i].1), Cosine(sqrt, modifier, candidates[i].1), Cosine(sqrt, modifier, candidates[j].1),
                       scored[i].1, scored[j].1);
    HigherComesFirst(scored, topK, scored[i], scored[j]);
  }

  lemma HigherIsBefore(sorted: seq<ScoredId>, p: nat, q: nat)
    requires Descending(sorted, IdScore) && p < |sorted| && q < |sorted| && sorted[p].1 > sorted[q].1
    ensures p < q
  {
    assert q < p ==> IdScore(sorted[q]) >= IdScore(sorted[p]);
  }

  lemma SortKeeps(scored: seq<ScoredId>, x: ScoredId)
    requires x in scored
    ensures x in SortDescending(scored, IdScore)
  {
    SortIsStable(scored, IdScore);
    assert x in multiset(SortDescending(scored, IdScore));
  }

  lemma HigherComesFirst(scored: seq<ScoredId>, topK: Option<nat>, x: ScoredId, y: ScoredId)
    requires x in scored && y in scored && x.1 > y.1
    ensures var sorted := SortDescending(scored, IdScore);
            var out := if topK.Some? then Take(sorted, topK.value) else sorted;
            && (forall p, q :: 0 <= p < |out| && 0 <= q < |out| && out[p] == x && out[q] == y ==> p < q)
            && (y in out ==> x in out)
  {
    var sorted := SortDescending(scored, IdScore);
    var out := if topK.Some? then Take(sorted, topK.value) else sorted;
    assert Descending(sorted, IdScore) by { SortIsStable(scored, IdScore); }
    SortKeeps(scored, x);
    forall p, q | 0 <= p < |out| && 0 <= q < |out| && out[p] == x && out[q] == y ensures p < q {
      HigherIsBefore(sorted, p, q);
    }
    if y in out {
      var u :| 0 <= u < |sorted| && sorted[u] == x;
      var q :| 0 <= q < |out| && out[q] == y;
      HigherIsBefore(sorted, u, q);
      assert out[u] == x;
    }
  }
}
