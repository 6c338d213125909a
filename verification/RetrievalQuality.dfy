/** The nDCG gate over exact reals. The rank discount 1/log2(rank + 1) is a
    parameter, known only to be positive and decreasing. */
module RetrievalQuality {
  import opened Common

  datatype QueryEval = QueryEval(rankedIds: seq<ItemId>, relevantIds: set<ItemId>)

  ghost predicate IsDiscount(d: nat -> real) {
    && (forall i: nat :: i >= 1 ==> d(i) > 0.0)
    && (forall i: nat, j: nat :: 1 <= i < j ==> d(i) > d(j))
  }

  /** `s[:k]`, where a negative k counts from the end. */
  function Prefix<T>(s: seq<T>, k: int): seq<T> {
    if k >= 0 then Take(s, k) else if |s| + k >= 0 then s[..|s| + k] else []
  }

  /** Discounted gain of a list whose first element has rank `start`. */
  function Gain(d: nat -> real, ids: seq<ItemId>, relevant: set<ItemId>, start: nat): real {
    if ids == [] then 0.0
    else (if ids[0] in relevant then d(start) else 0.0) + Gain(d, ids[1..], relevant, start + 1)
  }

  /** The sum of `n` consecutive discounts from rank `start`. */
  function Ideal(d: nat -> real, start: nat, n: nat): real
    decreases n
  {
    if n == 0 then 0.0 else d(start) + Ideal(d, start + 1, n - 1)
  }

  function IdealHits(relevant: set<ItemId>, k: int): nat {
    if k < 0 then 0 else if |relevant| <= k then |relevant| else k
  }

  function Ndcg(d: nat -> real, e: QueryEval, k: int): real {
    var idcg := Ideal(d, 1, IdealHits(e.relevantIds, k));
    if idcg > 0.0 then Gain(d, Prefix(e.rankedIds, k), e.relevantIds, 1) / idcg else 0.0
  }

  method NdcgAtK(d: nat -> real, e: QueryEval, k: int) returns (r: real)
    ensures r == Ndcg(d, e, k)
  {
    var dcg := 0.0;
    var top := Prefix(e.rankedIds, k);
    var i := 0;
    while i < |top|
      invariant i <= |top| && dcg == Gain(d, top[..i], e.relevantIds, 1)
    {
      GainAppend(d, top[..i], [top[i]], e.relevantIds, 1);
      assert top[..i + 1] == top[..i] + [top[i]];
      if top[i] in e.relevantIds {
        dcg := dcg + d(i + 1);
      }
      i := i + 1;
    }
    assert top[..i] == top;
    var idealHits := if |e.relevantIds| <= k then |e.relevantIds| else k;
    var idcg := Ideal(d, 1, if idealHits >= 0 then idealHits else 0);
    r := if idcg > 0.0 then dcg / idcg else 0.0;
  }

  lemma {:induction false} GainAppend(d: nat -> real, a: seq<ItemId>, b: seq<ItemId>, relevant: set<ItemId>, start: nat)
    ensures Gain(d, a + b, relevant, start) == Gain(d, a, relevant, start) + Gain(d, b, relevant, start + |a|)
  {
    if a == [] {
      assert a + b == b;
    } else {
      assert (a + b)[1..] == a[1..] + b;
      GainAppend(d, a[1..], b, relevant, start + 1);
    }
  }

  // ---- The bound ----

  function Hits(ids: seq<ItemId>, relevant: set<ItemId>): nat {
    if ids == [] then 0 else (if ids[0] in relevant then 1 else 0) + Hits(ids[1..], relevant)
  }

  predicate Repeats<T(==)>(s: seq<T>) { exists i, j :: 0 <= i < j < |s| && s[i] == s[j] }

  lemma {:induction false} IdealGrows(d: nat -> real, start: nat, m: nat, n: nat)
    requires IsDiscount(d) && start >= 1 && m <= n
    ensures 0.0 <= Ideal(d, start, m) <= Ideal(d, start, n)
    ensures m < n ==> Ideal(d, start, m) < Ideal(d, start, n)
    decreases n
  {
    if m > 0 {
      IdealGrows(d, start + 1, m - 1, n - 1);
    } else if n > 0 {
      IdealGrows(d, start + 1, 0, n - 1);
    }
  }

  lemma {:induction false} IdealShift(d: nat -> real, start: nat, n: nat)
    requires IsDiscount(d) && start >= 1
    ensures Ideal(d, start + 1, n) <= Ideal(d, start, n)
    ensures n > 0 ==> Ideal(d, start + 1, n) < Ideal(d, start, n)
    decreases n
  {
    if n > 0 { IdealShift(d, start + 1, n - 1); }
  }

  /** Exchange: pulling every hit to the front can only gain. */
  lemma {:induction false} GainWithinIdeal(d: nat -> real, ids: seq<ItemId>, relevant: set<ItemId>, start: nat)
    requires IsDiscount(d) && start >= 1
    ensures 0.0 <= Gain(d, ids, relevant, start) <= Ideal(d, start, Hits(ids, relevant))
  {
    if ids != [] {
      GainWithinIdeal(d, ids[1..], relevant, start + 1);
      IdealShift(d, start, Hits(ids[1..], relevant));
    }
  }

  function Found(ids: seq<ItemId>, relevant: set<ItemId>): set<ItemId> { set x | x in ids && x in relevant }

  lemma FoundCons(ids: seq<ItemId>, relevant: set<ItemId>)
    requires ids != []
    ensures Found(ids, relevant) == Found(ids[1..], relevant) + (if ids[0] in relevant then {ids[0]} else {})
  {
    assert forall x :: x in ids <==> x == ids[0] || x in ids[1..];
  }

  lemma RestIsDistinct(ids: seq<ItemId>)
    requires ids != [] && !Repeats(ids)
    ensures !Repeats(ids[1..]) && ids[0] !in ids[1..]
  {
    assert forall i :: 0 <= i < |ids| - 1 ==> ids[1..][i] == ids[i + 1];
  }

  lemma {:induction false} DistinctHits(ids: seq<ItemId>, relevant: set<ItemId>)
    requires !Repeats(ids)
    ensures Hits(ids, relevant) == |Found(ids, relevant)| && Hits(ids, relevant) <= |ids|
  {
    if ids != [] {
      RestIsDistinct(ids);
      DistinctHits(ids[1..], relevant);
      FoundCons(ids, relevant);
    }
  }

  lemma HitsWithinIdeal(ids: seq<ItemId>, relevant: set<ItemId>, k: nat)
    requires !Repeats(ids) && |ids| <= k
    ensures Hits(ids, relevant) <= IdealHits(relevant, k)
  {
    DistinctHits(ids, relevant);
    SubsetSize(Found(ids, relevant), relevant);
  }

  lemma SubsetSize<T>(a: set<T>, b: set<T>)
    requires a <= b
    ensures |a| <= |b|
  {
    assert b == a + (b - a);
  }

  lemma QuotientWithinOne(a: real, b: real)
    requires 0.0 <= a <= b && b > 0.0
    ensures 0.0 <= a / b <= 1.0 && (a / b == 1.0 <==> a == b)
  {
  }

  lemma NdcgInUnit(d: nat -> real, e: QueryEval, k: int)
    requires IsDiscount(d) && (k <= 0 || !Repeats(Prefix(e.rankedIds, k)))
    ensures 0.0 <= Ndcg(d, e, k) <= 1.0
  {
    var ideal := IdealHits(e.relevantIds, k);
    if k > 0 {
      var top := Prefix(e.rankedIds, k);
      HitsWithinIdeal(top, e.relevantIds, k);
      GainWithinIdeal(d, top, e.relevantIds, 1);
      IdealGrows(d, 1, Hits(top, e.relevantIds), ideal);
      if Ideal(d, 1, ideal) > 0.0 {
        QuotientWithinOne(Gain(d, top, e.relevantIds, 1), Ideal(d, 1, ideal));
      }
    }
  }

  // ---- Exactly when the bound holds ----

  function Elements(ids: seq<ItemId>): set<ItemId> { set x | x in ids }

  lemma {:induction false} AllRelevant(d: nat -> real, ids: seq<ItemId>, relevant: set<ItemId>, start: nat)
    requires forall x :: x in ids ==> x in relevant
    ensures Gain(d, ids, relevant, start) == Ideal(d, start, |ids|)
  {
    if ids != [] { AllRelevant(d, ids[1..], relevant, start + 1); }
  }

  lemma {:induction false} ElementCount(ids: seq<ItemId>)
    ensures |Elements(ids)| <= |ids| && (Repeats(ids) ==> |Elements(ids)| < |ids|)
  {
    if ids != [] {
      var front, last := ids[..|ids| - 1], ids[|ids| - 1];
      ElementCount(front);
      assert Elements(ids) == Elements(front) + {last};
      if Repeats(ids) && last !in front {
        assert Repeats(front);
      }
    }
  }

  lemma RepeatsBreakTheBound(d: nat -> real, ids: seq<ItemId>, k: int)
    requires IsDiscount(d) && k > 0 && Repeats(Prefix(ids, k))
    ensures Ndcg(d, QueryEval(ids, Elements(Prefix(ids, k))), k) > 1.0
  {
    var top := Prefix(ids, k);
    var relevant := Elements(top);
    AllRelevant(d, top, relevant, 1);
    ElementCount(top);
    assert top[0] in relevant;
    IdealGrows(d, 1, |relevant|, |top|);
    assert relevant != {} && |relevant| > 0;
    IdealGrows(d, 1, 0, |relevant|);
    assert IdealHits(relevant, k) == |relevant|;
    QuotientAboveOne(Gain(d, top, relevant, 1), Ideal(d, 1, |relevant|));
  }

  lemma QuotientAboveOne(a: real, b: real)
    requires a > b > 0.0
    ensures a / b > 1.0
  {
  }

  /** nDCG stays within [0, 1] for every ground truth if and only if the top k of
      the ranking repeat no id (or nothing is scored at all). */
  lemma BoundedExactlyWithoutRepeats(d: nat -> real, ids: seq<ItemId>, k: int)
    requires IsDiscount(d)
    ensures (forall relevant :: 0.0 <= Ndcg(d, QueryEval(ids, relevant), k) <= 1.0) <==> k <= 0 || !Repeats(Prefix(ids, k))
  {
    if k > 0 && Repeats(Prefix(ids, k)) {
      RepeatsBreakTheBound(d, ids, k);
    } else {
      forall relevant ensures 0.0 <= Ndcg(d, QueryEval(ids, relevant), k) <= 1.0 {
        NdcgInUnit(d, QueryEval(ids, relevant), k);
      }
    }
  }

  // ---- Exactly when it is perfect ----

  lemma {:induction false} FullGain(d: nat -> real, ids: seq<ItemId>, relevant: set<ItemId>, start: nat, m: nat)
    requires IsDiscount(d) && start >= 1 && Hits(ids, relevant) <= m
    ensures Gain(d, ids, relevant, start) == Ideal(d, start, m) <==> m <= |ids| && forall i :: 0 <= i < m ==> ids[i] in relevant
  {
    if ids == [] {
      IdealGrows(d, start, 0, m);
    } else if ids[0] in relevant {
      FullGain(d, ids[1..], relevant, start + 1, m - 1);
      assert forall i :: 1 <= i < |ids| ==> ids[i] == ids[1..][i - 1];
    } else {
      GainWithinIdeal(d, ids[1..], relevant, start + 1);
      IdealGrows(d, start + 1, Hits(ids[1..], relevant), m);
      IdealShift(d, start, m);
      if m == 0 {
        IdealGrows(d, start + 1, 0, 0);
      }
    }
  }

  /** A ranking without repeats scores 1 exactly when its first
      min(relevant, k) places are all relevant. */
  lemma PerfectExactly(d: nat -> real, e: QueryEval, k: int)
    requires IsDiscount(d) && k > 0 && e.relevantIds != {} && !Repeats(Prefix(e.rankedIds, k))
    ensures var m := IdealHits(e.relevantIds, k);
            Ndcg(d, e, k) == 1.0 <==> m <= |e.rankedIds| && forall i :: 0 <= i < m ==> e.rankedIds[i] in e.relevantIds
  {
    var top, m := Prefix(e.rankedIds, k), IdealHits(e.relevantIds, k);
    HitsWithinIdeal(top, e.relevantIds, k);
    FullGain(d, top, e.relevantIds, 1, m);
    GainWithinIdeal(d, top, e.relevantIds, 1);
    IdealGrows(d, 1, Hits(top, e.relevantIds), m);
    IdealGrows(d, 1, 0, m);
    QuotientWithinOne(Gain(d, top, e.relevantIds, 1), Ideal(d, 1, m));
    assert forall i :: 0 <= i < |top| ==> top[i] == e.rankedIds[i];
  }

  // ---- Moving a relevant item earlier ----

  function Swapped<T>(s: seq<T>, p: nat): (r: seq<T>)
    requires p + 1 < |s|
  {
    s[..p] + [s[p + 1], s[p]] + s[p + 2..]
  }

  /** The item at `from` moves up to `to`; those in between move down one place. */
  function MovedUp<T>(s: seq<T>, from: nat, to: nat): (r: seq<T>)
    requires to <= from < |s|
  {
    s[..to] + [s[from]] + s[to..from] + s[from + 1..]
  }

  lemma {:induction false} SwapGains(d: nat -> real, ids: seq<ItemId>, relevant: set<ItemId>, p: nat, start: nat)
    requires IsDiscount(d) && start >= 1 && p + 1 < |ids| && ids[p + 1] in relevant
    ensures Gain(d, Swapped(ids, p), relevant, start) >= Gain(d, ids, relevant, start)
  {
    var s := Swapped(ids, p);
    if p == 0 {
      assert s[1..][1..] == ids[1..][1..] == ids[2..];
      assert Gain(d, s[1..], relevant, start + 1) == (if s[1] in relevant then d(start + 1) else 0.0) + Gain(d, ids[2..], relevant, start + 2);
      assert Gain(d, ids[1..], relevant, start + 1) == d(start + 1) + Gain(d, ids[2..], relevant, start + 2);
    } else {
      assert s[1..] == Swapped(ids[1..], p - 1);
      SwapGains(d, ids[1..], relevant, p - 1, start + 1);
    }
  }

  lemma CutBetween<T>(s: seq<T>, p: nat, k: int)
    requires p + 1 < |s| && |Prefix(s, k)| == p + 1
    ensures Prefix(s, k) == Prefix(s, k)[..p] + [s[p]]
    ensures Prefix(Swapped(s, p), k) == Prefix(s, k)[..p] + [s[p + 1]]
  {
    var t := Swapped(s, p);
    assert Prefix(s, k) == s[..p + 1] && Prefix(t, k) == t[..p + 1];
    assert t[..p + 1] == s[..p] + [s[p + 1]];
    assert s[..p + 1][..p] == s[..p];
  }

  /** One step up, seen through the cut at k: inside, across the cut, or below. */
  lemma SwapGainsInPrefix(d: nat -> real, ids: seq<ItemId>, relevant: set<ItemId>, p: nat, k: int)
    requires IsDiscount(d) && p + 1 < |ids| && ids[p + 1] in relevant
    ensures Gain(d, Prefix(Swapped(ids, p), k), relevant, 1) >= Gain(d, Prefix(ids, k), relevant, 1)
  {
    var before, after := Prefix(ids, k), Prefix(Swapped(ids, p), k);
    assert |before| == |after|;
    if p + 1 < |before| {
      assert after == Swapped(before, p);
      SwapGains(d, before, relevant, p, 1);
    } else if p + 1 == |before| {
      CutBetween(ids, p, k);
      GainAppend(d, before[..p], [ids[p]], relevant, 1);
      GainAppend(d, before[..p], [ids[p + 1]], relevant, 1);
    } else {
      assert before == after;
    }
  }

  lemma MoveByOne<T>(s: seq<T>, from: nat, to: nat)
    requires to < from < |s|
    ensures Swapped(s, from - 1)[from - 1] == s[from]
    ensures MovedUp(Swapped(s, from - 1), from - 1, to) == MovedUp(s, from, to)
  {
    var t := Swapped(s, from - 1);
    assert t[..to] == s[..to] && t[to..from - 1] == s[to..from - 1] && t[from..] == [s[from - 1]] + s[from + 1..];
    assert s[to..from] == s[to..from - 1] + [s[from - 1]];
  }

  lemma {:induction false} MoveGains(d: nat -> real, ids: seq<ItemId>, relevant: set<ItemId>, from: nat, to: nat, k: int)
    requires IsDiscount(d) && to <= from < |ids| && ids[from] in relevant
    ensures Gain(d, Prefix(MovedUp(ids, from, to), k), relevant, 1) >= Gain(d, Prefix(ids, k), relevant, 1)
    decreases from
  {
    if to == from {
      assert MovedUp(ids, from, to) == ids;
    } else {
      var s := Swapped(ids, from - 1);
      SwapGainsInPrefix(d, ids, relevant, from - 1, k);
      MoveByOne(ids, from, to);
      MoveGains(d, s, relevant, from - 1, to, k);
    }
  }

  /** Moving a relevant item to any earlier place never lowers nDCG@k. */
  lemma EarlierIsNoWorse(d: nat -> real, e: QueryEval, from: nat, to: nat, k: int)
    requires IsDiscount(d) && to <= from < |e.rankedIds| && e.rankedIds[from] in e.relevantIds
    ensures Ndcg(d, e.(rankedIds := MovedUp(e.rankedIds, from, to)), k) >= Ndcg(d, e, k)
  {
    MoveGains(d, e.rankedIds, e.relevantIds, from, to, k);
    var idcg := Ideal(d, 1, IdealHits(e.relevantIds, k));
    if idcg > 0.0 {
      QuotientGrows(Gain(d, Prefix(e.rankedIds, k), e.relevantIds, 1), Gain(d, Prefix(MovedUp(e.rankedIds, from, to), k), e.relevantIds, 1), idcg);
    }
  }

  lemma QuotientGrows(a: real, b: real, c: real)
    requires a <= b && c > 0.0
    ensures a / c <= b / c
  {
    assert b / c - a / c == (b - a) / c;
  }

  // ---- The metric as a formula ----

  /** How many places of a list of length n the slice `[:k]` keeps. */
  function Places(n: nat, k: int): nat {
    if k >= n then n else if k >= 0 then k else if n + k >= 0 then n + k else 0
  }

  lemma PrefixPlaces<T>(s: seq<T>, k: int)
    ensures |Prefix(s, k)| == Places(|s|, k) && forall i :: 0 <= i < Places(|s|, k) ==> Prefix(s, k)[i] == s[i]
  {
  }

  /** What the item at place `i` contributes: the discount of rank i + 1 if relevant. */
  function GainAt(d: nat -> real, ids: seq<ItemId>, relevant: set<ItemId>, i: nat): real {
    if i < |ids| && ids[i] in relevant then d(i + 1) else 0.0
  }

  /** The contributions of the first `n` places. */
  function GainSum(d: nat -> real, ids: seq<ItemId>, relevant: set<ItemId>, n: nat): real {
    if n == 0 then 0.0 else GainSum(d, ids, relevant, n - 1) + GainAt(d, ids, relevant, n - 1)
  }

  /** d(1) + d(2) + ... + d(n) */
  function DiscountSum(d: nat -> real, n: nat): real { if n == 0 then 0.0 else DiscountSum(d, n - 1) + d(n) }

  lemma {:induction false} GainIsSum(d: nat -> real, ids: seq<ItemId>, relevant: set<ItemId>, n: nat)
    requires n <= |ids|
    ensures Gain(d, ids[..n], relevant, 1) == GainSum(d, ids, relevant, n)
  {
    if n > 0 {
      GainIsSum(d, ids, relevant, n - 1);
      assert ids[..n] == ids[..n - 1] + [ids[n - 1]];
      GainAppend(d, ids[..n - 1], [ids[n - 1]], relevant, 1);
    }
  }

  lemma {:induction false} IdealAppend(d: nat -> real, start: nat, n: nat)
    ensures Ideal(d, start, n + 1) == Ideal(d, start, n) + d(start + n)
    decreases n
  {
    if n > 0 { IdealAppend(d, start + 1, n - 1); }
  }

  lemma {:induction false} IdealIsSum(d: nat -> real, n: nat)
    ensures Ideal(d, 1, n) == DiscountSum(d, n)
  {
    if n > 0 {
      IdealIsSum(d, n - 1);
      IdealAppend(d, 1, n - 1);
    }
  }

  /** nDCG@k is the sum of d(i + 1) over the relevant places i of the top k, divided
      by d(1) + ... + d(min(relevant, k)); without an ideal place it is zero. */
  lemma NdcgFormula(d: nat -> real, e: QueryEval, k: int)
    requires IsDiscount(d)
    ensures var m := if |e.relevantIds| <= k then |e.relevantIds| else if k >= 0 then k else 0;
            && (m == 0 ==> Ndcg(d, e, k) == 0.0)
            && (m > 0 ==> DiscountSum(d, m) > 0.0
                          && Ndcg(d, e, k) == GainSum(d, e.rankedIds, e.relevantIds, Places(|e.rankedIds|, k)) / DiscountSum(d, m))
  {
    var m := if |e.relevantIds| <= k then |e.relevantIds| else if k >= 0 then k else 0;
    var n := Places(|e.rankedIds|, k);
    IdealIsSum(d, m);
    IdealGrows(d, 1, 0, m);
    PrefixPlaces(e.rankedIds, k);
    assert Prefix(e.rankedIds, k) == e.rankedIds[..n];
    GainIsSum(d, e.rankedIds, e.relevantIds, n);
  }
}
