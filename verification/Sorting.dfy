/** `list.sort(key=..., reverse=True)`: stable, so equal keys keep their order. */
module Sorting {
  import opened Common

  function Insert<T>(x: T, s: seq<T>, key: T -> real): seq<T> {
    if s == [] || key(x) >= key(s[0]) then [x] + s
    else [s[0]] + Insert(x, s[1..], key)
  }

  function SortDescending<T>(s: seq<T>, key: T -> real): seq<T> {
    if s == [] then [] else Insert(s[0], SortDescending(s[1..], key), key)
  }

  ghost predicate Descending<T>(s: seq<T>, key: T -> real) {
    forall i, j :: 0 <= i < j < |s| ==> key(s[i]) >= key(s[j])
  }

  function WithKey<T>(s: seq<T>, key: T -> real, v: real): seq<T> {
    Filter(s, x => key(x) == v)
  }

  lemma WithKeyCons<T>(x: T, s: seq<T>, key: T -> real, v: real)
    ensures WithKey([x] + s, key, v) == (if key(x) == v then [x] else []) + WithKey(s, key, v)
  {
    assert ([x] + s)[1..] == s;
  }

  lemma {:induction false} InsertPermutes<T>(x: T, s: seq<T>, key: T -> real)
    ensures multiset(Insert(x, s, key)) == multiset{x} + multiset(s)
  {
    if s != [] && key(x) < key(s[0]) {
      InsertPermutes(x, s[1..], key);
      assert s == [s[0]] + s[1..];
    }
  }

  lemma {:induction false} InsertOrders<T>(x: T, s: seq<T>, key: T -> real)
    requires Descending(s, key)
    ensures Descending(Insert(x, s, key), key)
  {
    if s != [] && key(x) < key(s[0]) {
      InsertOrders(x, s[1..], key);
      InsertPermutes(x, s[1..], key);
      var rest := Insert(x, s[1..], key);
      forall j | 0 <= j < |rest| ensures key(s[0]) >= key(rest[j]) {
        assert rest[j] in multiset(rest);
      }
    }
  }

  lemma {:induction false} InsertIsStable<T>(x: T, s: seq<T>, key: T -> real, v: real)
    ensures WithKey(Insert(x, s, key), key, v) == WithKey([x] + s, key, v)
  {
    if s != [] && key(x) < key(s[0]) {
      InsertIsStable(x, s[1..], key, v);
      assert s == [s[0]] + s[1..];
      WithKeyCons(s[0], Insert(x, s[1..], key), key, v);
      WithKeyCons(x, s[1..], key, v);
      WithKeyCons(s[0], s[1..], key, v);
      WithKeyCons(x, s, key, v);
    }
  }

  /** The sort orders, loses nothing, and keeps the order inside every key. */
  lemma {:induction false} SortIsStable<T>(s: seq<T>, key: T -> real)
    ensures Descending(SortDescending(s, key), key)
    ensures multiset(SortDescending(s, key)) == multiset(s)
    ensures |SortDescending(s, key)| == |s|
    ensures forall v :: WithKey(SortDescending(s, key), key, v) == WithKey(s, key, v)
  {
    if s != [] {
      SortIsStable(s[1..], key);
      var rest := SortDescending(s[1..], key);
      InsertOrders(s[0], rest, key);
      InsertPermutes(s[0], rest, key);
      assert s == [s[0]] + s[1..];
      forall v ensures WithKey(SortDescending(s, key), key, v) == WithKey(s, key, v) {
        InsertIsStable(s[0], rest, key, v);
        WithKeyCons(s[0], rest, key, v);
        WithKeyCons(s[0], s[1..], key, v);
      }
    }
    assert |multiset(SortDescending(s, key))| == |multiset(s)|;
  }

  lemma {:induction false} HeadOfKey<T>(s: seq<T>, key: T -> real, x: T)
    requires x in s
    ensures WithKey(s, key, key(x)) != []
  {
    FilterIn(s, y => key(y) == key(x), x);
  }

  /** Those properties pin the result down: any other stable descending
      arrangement is the same list. */
  lemma {:induction false} StableSortIsUnique<T>(a: seq<T>, b: seq<T>, key: T -> real)
    requires Descending(a, key) && Descending(b, key)
    requires forall v :: WithKey(a, key, v) == WithKey(b, key, v)
    ensures a == b
  {
    if a == [] {
      if b != [] { HeadOfKey(b, key, b[0]); }
    } else {
      HeadOfKey(a, key, a[0]);
      var v := key(a[0]);
      assert WithKey(b, key, v) != [];
      var y := WithKey(b, key, v)[0];
      FilterIn(b, z => key(z) == v, y);
      assert key(b[0]) >= v;
      HeadOfKey(b, key, b[0]);
      var z := WithKey(a, key, key(b[0]))[0];
      FilterIn(a, w => key(w) == key(b[0]), z);
      assert key(b[0]) == v;
      assert a[0] == WithKey(a, key, v)[0] == WithKey(b, key, v)[0] == b[0];
      forall u ensures WithKey(a[1..], key, u) == WithKey(b[1..], key, u) {
        assert WithKey(a, key, u) == WithKey(b, key, u);
        if u == v {
          assert WithKey(a, key, u)[1..] == WithKey(a[1..], key, u);
          assert WithKey(b, key, u)[1..] == WithKey(b[1..], key, u);
        }
      }
      StableSortIsUnique(a[1..], b[1..], key);
      assert a == [a[0]] + a[1..] && b == [b[0]] + b[1..];
    }
  }

  /** Sorting a list that is already in order changes nothing. */
  lemma SortOfSorted<T>(s: seq<T>, key: T -> real)
    requires Descending(s, key)
    ensures SortDescending(s, key) == s
  {
    SortIsStable(s, key);
    StableSortIsUnique(SortDescending(s, key), s, key);
  }

  // ---- Elements told apart by an id ----

  ghost predicate Apart<T, K>(s: seq<T>, id: T -> K) {
    forall i, j :: 0 <= i < j < |s| ==> id(s[i]) != id(s[j])
  }

  lemma FirstIsApart<T, K>(s: seq<T>, id: T -> K, y: T)
    requires s != [] && Apart(s, id) && y in s[1..]
    ensures id(y) != id(s[0])
  {
    var j :| 0 <= j < |s| - 1 && s[1..][j] == y;
    assert s[j + 1] == y;
  }

  lemma ConsIsApart<T, K>(x: T, s: seq<T>, id: T -> K)
    requires Apart(s, id) && forall y :: y in s ==> id(y) != id(x)
    ensures Apart([x] + s, id)
  {
    assert forall i :: 0 <= i < |s| ==> s[i] in s;
  }

  lemma InsertMembers<T>(x: T, s: seq<T>, key: T -> real, y: T)
    ensures y in Insert(x, s, key) <==> y == x || y in s
  {
    InsertPermutes(x, s, key);
    assert y in Insert(x, s, key) <==> y in multiset(Insert(x, s, key));
    assert y in s <==> y in multiset(s);
  }

  lemma SortMembers<T>(s: seq<T>, key: T -> real, y: T)
    ensures y in SortDescending(s, key) <==> y in s
  {
    SortIsStable(s, key);
    assert y in SortDescending(s, key) <==> y in multiset(SortDescending(s, key));
    assert y in s <==> y in multiset(s);
  }

  lemma {:induction false} InsertKeepsApart<T, K>(x: T, s: seq<T>, key: T -> real, id: T -> K)
    requires Apart(s, id) && forall y :: y in s ==> id(y) != id(x)
    ensures Apart(Insert(x, s, key), id)
  {
    if s == [] || key(x) >= key(s[0]) {
      ConsIsApart(x, s, id);
    } else {
      InsertKeepsApart(x, s[1..], key, id);
      forall y | y in Insert(x, s[1..], key) ensures id(y) != id(s[0]) {
        InsertMembers(x, s[1..], key, y);
        if y != x { FirstIsApart(s, id, y); }
      }
      ConsIsApart(s[0], Insert(x, s[1..], key), id);
    }
  }

  lemma {:induction false} SortKeepsApart<T, K>(s: seq<T>, key: T -> real, id: T -> K)
    requires Apart(s, id)
    ensures Apart(SortDescending(s, key), id)
  {
    if s != [] {
      SortKeepsApart(s[1..], key, id);
      forall y | y in SortDescending(s[1..], key) ensures id(y) != id(s[0]) {
        SortMembers(s[1..], key, y);
        FirstIsApart(s, id, y);
      }
      InsertKeepsApart(s[0], SortDescending(s[1..], key), key, id);
    }
  }

  lemma {:induction false} FilterKeepsApart<T, K>(s: seq<T>, p: T -> bool, id: T -> K)
    requires Apart(s, id)
    ensures Apart(Filter(s, p), id)
  {
    if s != [] {
      FilterKeepsApart(s[1..], p, id);
      var rest := Filter(s[1..], p);
      if p(s[0]) {
        forall y | y in rest ensures id(y) != id(s[0]) {
          FilterIn(s[1..], p, y);
          FirstIsApart(s, id, y);
        }
        ConsIsApart(s[0], rest, id);
      }
    }
  }
}
