/** The vector-store contract shared by the ingestion worker and query-service:
    per-tenant collections, insertion-ordered, searched by cosine similarity. */
module VectorStore {
  import opened Common
  import opened VectorMath
  import opened Sorting

  // ---- Collection names ----

  const PREFIX: string := "tenant_"

  function WithoutDashes(s: string): string { Filter(s, c => c != '-') }

  function CollectionName(tenant: TenantId): string { PREFIX + WithoutDashes(tenant) }

  predicate LowerHex(s: string) {
    forall i :: 0 <= i < |s| ==> '0' <= s[i] <= '9' || 'a' <= s[i] <= 'f'
  }

  /** What `str(uuid)` prints: 8-4-4-4-12 lower-case hexadecimal digits. */
  predicate CanonicalUuid(s: string) {
    && |s| == 36
    && s[8] == '-' && s[13] == '-' && s[18] == '-' && s[23] == '-'
    && LowerHex(s[..8]) && LowerHex(s[9..13]) && LowerHex(s[14..18]) && LowerHex(s[19..23]) && LowerHex(s[24..])
  }

  lemma {:induction false} HexHasNoDashes(s: string)
    requires LowerHex(s)
    ensures WithoutDashes(s) == s
  {
    if s != [] {
      assert s == [s[0]] + s[1..];
      HexHasNoDashes(s[1..]);
    }
  }

  lemma DashSeparates(s: string, t: string)
    requires LowerHex(s)
    ensures WithoutDashes(s + "-" + t) == s + WithoutDashes(t)
  {
    assert s + "-" + t == s + ("-" + t);
    FilterAppend(s, "-" + t, c => c != '-');
    FilterAppend("-", t, c => c != '-');
    HexHasNoDashes(s);
  }

  lemma SplitAtDash(s: string, i: nat, j: nat)
    requires i <= j < |s| && s[j] == '-'
    ensures s[i..] == s[i..j] + "-" + s[j + 1..]
  {
  }

  /** Dropping the dashes of a canonical UUID leaves its five groups. */
  lemma UuidGroups(s: string)
    requires CanonicalUuid(s)
    ensures WithoutDashes(s) == s[..8] + (s[9..13] + (s[14..18] + (s[19..23] + s[24..])))
  {
    SplitAtDash(s, 0, 8);
    DashSeparates(s[..8], s[9..]);
    SplitAtDash(s, 9, 13);
    DashSeparates(s[9..13], s[14..]);
    SplitAtDash(s, 14, 18);
    DashSeparates(s[14..18], s[19..]);
    SplitAtDash(s, 19, 23);
    DashSeparates(s[19..23], s[24..]);
    HexHasNoDashes(s[24..]);
  }

  function WithDashes(w: string): string
    requires |w| == 32
  {
    w[..8] + "-" + w[8..12] + "-" + w[12..16] + "-" + w[16..20] + "-" + w[20..]
  }

  lemma UuidRestored(s: string)
    requires CanonicalUuid(s)
    ensures |WithoutDashes(s)| == 32 && WithDashes(WithoutDashes(s)) == s
  {
    UuidGroups(s);
    var w := WithoutDashes(s);
    assert w[..8] == s[..8] && w[8..12] == s[9..13] && w[12..16] == s[14..18];
    assert w[16..20] == s[19..23] && w[20..] == s[24..];
  }

  /** Tenants never share a collection. */
  lemma CollectionNameInjective(a: TenantId, b: TenantId)
    requires CanonicalUuid(a) && CanonicalUuid(b)
    ensures CollectionName(a) == CollectionName(b) <==> a == b
  {
    UuidRestored(a);
    UuidRestored(b);
    assert CollectionName(a)[|PREFIX|..] == WithoutDashes(a);
    assert CollectionName(b)[|PREFIX|..] == WithoutDashes(b);
  }

  // ---- Collections: dictionaries that remember insertion order ----

  datatype VectorRecord = VectorRecord(id: ItemId, vector: Vector, payload: map<string, Json>)

  type Collection = seq<VectorRecord>
  type Store = map<string, Collection>

  predicate Has(col: Collection, id: ItemId) { exists i :: 0 <= i < |col| && col[i].id == id }

  ghost predicate UniqueIds(col: Collection) {
    forall i, j :: 0 <= i < j < |col| ==> col[i].id != col[j].id
  }

  /** `col[record.id] = record`: an existing entry keeps its place. */
  function Put(col: Collection, rec: VectorRecord): Collection {
    if col == [] then [rec]
    else if col[0].id == rec.id then [rec] + col[1..]
    else [col[0]] + Put(col[1..], rec)
  }

  function PutAll(col: Collection, recs: seq<VectorRecord>): Collection {
    if recs == [] then col else Put(PutAll(col, recs[..|recs| - 1]), recs[|recs| - 1])
  }

  function Drop(col: Collection, id: ItemId): Collection { Filter(col, (r: VectorRecord) => r.id != id) }

  function DropAll(col: Collection, ids: seq<ItemId>): Collection {
    if ids == [] then col else Drop(DropAll(col, ids[..|ids| - 1]), ids[|ids| - 1])
  }

  function CollectionOf(store: Store, tenant: TenantId): Collection {
    if CollectionName(tenant) in store then store[CollectionName(tenant)] else []
  }

  function Upserted(store: Store, tenant: TenantId, recs: seq<VectorRecord>): Store {
    store[CollectionName(tenant) := PutAll(CollectionOf(store, tenant), recs)]
  }

  lemma {:induction false} PutElements(col: Collection, rec: VectorRecord)
    ensures rec in Put(col, rec)
    ensures forall r :: r in Put(col, rec) ==> r == rec || r in col
    ensures forall r :: r in col && r.id != rec.id ==> r in Put(col, rec)
  {
    if col != [] {
      assert col == [col[0]] + col[1..];
      if col[0].id != rec.id { PutElements(col[1..], rec); }
    }
  }

  lemma HasMember(col: Collection, id: ItemId)
    ensures Has(col, id) <==> exists r :: r in col && r.id == id
  {
    if Has(col, id) {
      var i :| 0 <= i < |col| && col[i].id == id;
      assert col[i] in col;
    }
  }

  lemma {:induction false} PutUnique(col: Collection, rec: VectorRecord)
    requires UniqueIds(col)
    ensures UniqueIds(Put(col, rec)) && forall r :: r in Put(col, rec) && r.id == rec.id ==> r == rec
  {
    if col != [] && col[0].id != rec.id {
      PutUnique(col[1..], rec);
      PutElements(col[1..], rec);
      var rest := Put(col[1..], rec);
      forall j | 0 <= j < |rest| ensures rest[j].id != col[0].id {
        assert rest[j] in rest;
      }
    }
  }

  /** An upsert makes its record the one stored under that id and touches no other. */
  lemma PutMeaning(col: Collection, rec: VectorRecord)
    ensures forall r :: r in Put(col, rec) ==> r == rec || r in col
    ensures rec in Put(col, rec)
    ensures forall r :: r in col && r.id != rec.id ==> r in Put(col, rec)
    ensures forall id :: Has(Put(col, rec), id) <==> id == rec.id || Has(col, id)
    ensures UniqueIds(col) ==> UniqueIds(Put(col, rec)) && forall r :: r in Put(col, rec) && r.id == rec.id ==> r == rec
  {
    PutElements(col, rec);
    forall id ensures Has(Put(col, rec), id) <==> id == rec.id || Has(col, id) {
      HasMember(Put(col, rec), id);
      HasMember(col, id);
    }
    if UniqueIds(col) { PutUnique(col, rec); }
  }

  /** Deleting ids removes exactly their records and keeps the others in order. */
  lemma {:induction false} DropMeaning(col: Collection, ids: seq<ItemId>)
    ensures forall r :: r in DropAll(col, ids) <==> r in col && r.id !in ids
    ensures DropAll(col, ids) == Filter(col, (r: VectorRecord) => r.id !in ids)
  {
    if ids == [] {
      KeepsAll(col, (r: VectorRecord) => r.id !in ids);
    } else {
      var front, last := ids[..|ids| - 1], ids[|ids| - 1];
      DropMeaning(col, front);
      assert forall id :: id in ids <==> id in front || id == last;
      FilterTwice(col, (r: VectorRecord) => r.id !in front, (r: VectorRecord) => r.id != last, (r: VectorRecord) => r.id !in ids);
    }
    forall r ensures r in DropAll(col, ids) <==> r in col && r.id !in ids {
      FilterIn(col, (q: VectorRecord) => q.id !in ids, r);
    }
  }

  lemma {:induction false} KeepsAll<T>(s: seq<T>, p: T -> bool)
    requires forall x :: x in s ==> p(x)
    ensures Filter(s, p) == s
  {
    if s != [] {
      KeepsAll(s[1..], p);
      assert s == [s[0]] + s[1..];
    }
  }

  lemma {:induction false} FilterTwice<T>(s: seq<T>, p: T -> bool, q: T -> bool, both: T -> bool)
    requires forall x :: x in s ==> (both(x) <==> p(x) && q(x))
    ensures Filter(Filter(s, p), q) == Filter(s, both)
  {
    if s != [] {
      FilterTwice(s[1..], p, q, both);
      if p(s[0]) { assert ([s[0]] + Filter(s[1..], p))[1..] == Filter(s[1..], p); }
    }
  }

  // ---- Search ----

  /** Python's `==` between JSON scalars: booleans count as 1 and 0. */
  function AsNumber(j: Json): Json {
    match j
    case Bool(b) => Num(if b then 1.0 else 0.0)
    case _ => j
  }

  /** `payload.get(k) == v for all filters`: an absent key reads as null. */
  predicate Matches(payload: map<string, Json>, filters: map<string, Json>) {
    forall k :: k in filters ==> AsNumber(if k in payload then payload[k] else Null) == AsNumber(filters[k])
  }

  datatype Hit = Hit(id: ItemId, score: real, payload: map<string, Json>, vector: Option<Vector>)

  function ScoreOf(h: Hit): real { h.score }

  function HitFor(sqrt: real -> real, query: Vector, r: VectorRecord, withVectors: bool): Hit {
    Hit(r.id, Cosine(sqrt, query, r.vector), r.payload, if withVectors then Some(r.vector) else None)
  }

  /** Every matching record, scored, in insertion order. */
  function Hits(sqrt: real -> real, col: Collection, query: Vector, filters: map<string, Json>, withVectors: bool): seq<Hit> {
    if col == [] then []
    else
      var front := Hits(sqrt, col[..|col| - 1], query, filters, withVectors);
      var r := col[|col| - 1];
      if Matches(r.payload, filters) then front + [HitFor(sqrt, query, r, withVectors)] else front
  }

  /** The whole ranking a limit is cut from. */
  function Ranking(sqrt: real -> real, col: Collection, query: Vector, filters: map<string, Json>, withVectors: bool): seq<Hit> {
    SortDescending(Hits(sqrt, col, query, filters, withVectors), ScoreOf)
  }

  lemma {:induction false} HitsMeaning(sqrt: real -> real, col: Collection, query: Vector, filters: map<string, Json>, withVectors: bool)
    ensures forall h :: h in Hits(sqrt, col, query, filters, withVectors) <==>
              exists r :: r in col && Matches(r.payload, filters) && h == HitFor(sqrt, query, r, withVectors)
    ensures UniqueIds(col) ==> DistinctIds(Hits(sqrt, col, query, filters, withVectors))
  {
    if col != [] {
      var front, r := col[..|col| - 1], col[|col| - 1];
      HitsMeaning(sqrt, front, query, filters, withVectors);
      assert col == front + [r];
      var hs := Hits(sqrt, front, query, filters, withVectors);
      if UniqueIds(col) {
        forall i | 0 <= i < |hs| ensures hs[i].id != r.id {
          assert hs[i] in hs;
          var q :| q in front && Matches(q.payload, filters) && hs[i] == HitFor(sqrt, query, q, withVectors);
        }
      }
    }
  }

  ghost predicate DistinctIds(hs: seq<Hit>) {
    forall i, j :: 0 <= i < j < |hs| ==> hs[i].id != hs[j].id
  }

  lemma {:induction false} InsertKeepsDistinct(h: Hit, s: seq<Hit>)
    requires DistinctIds(s) && forall i :: 0 <= i < |s| ==> s[i].id != h.id
    ensures DistinctIds(Insert(h, s, ScoreOf))
    ensures forall x :: x in Insert(h, s, ScoreOf) <==> x == h || x in s
  {
    if s != [] && h.score < s[0].score {
      InsertKeepsDistinct(h, s[1..]);
      var rest := Insert(h, s[1..], ScoreOf);
      forall i | 0 <= i < |rest| ensures rest[i].id != s[0].id {
        assert rest[i] in rest;
      }
    }
  }

  lemma {:induction false} SortKeepsDistinct(s: seq<Hit>)
    requires DistinctIds(s)
    ensures DistinctIds(SortDescending(s, ScoreOf))
    ensures forall x :: x in SortDescending(s, ScoreOf) <==> x in s
  {
    if s != [] {
      SortKeepsDistinct(s[1..]);
      var rest := SortDescending(s[1..], ScoreOf);
      forall i | 0 <= i < |rest| ensures rest[i].id != s[0].id {
        assert rest[i] in rest;
      }
      InsertKeepsDistinct(s[0], rest);
    }
  }

  /** The ranking holds exactly the matching records of its collection, scored by
      cosine, best first. */
  lemma {:induction false} RankingMeaning(sqrt: real -> real, col: Collection, query: Vector, filters: map<string, Json>, withVectors: bool)
    ensures var all := Ranking(sqrt, col, query, filters, withVectors);
            && Descending(all, ScoreOf)
            && (forall h :: h in all <==> exists r :: r in col && Matches(r.payload, filters) && h == HitFor(sqrt, query, r, withVectors))
            && (UniqueIds(col) ==> DistinctIds(all))
  {
    var hs := Hits(sqrt, col, query, filters, withVectors);
    var all := Ranking(sqrt, col, query, filters, withVectors);
    HitsMeaning(sqrt, col, query, filters, withVectors);
    SortIsStable(hs, ScoreOf);
    if UniqueIds(col) { SortKeepsDistinct(hs); }
    forall h ensures h in all <==> h in hs {
      assert h in multiset(all) <==> h in multiset(hs);
    }
  }

  /** A search with a limit is complete: a matching record it leaves out was
      crowded out by `limit` hits that score at least as much. */
  lemma {:induction false} SearchIsTopK(sqrt: real -> real, col: Collection, query: Vector, filters: map<string, Json>, withVectors: bool,
                     limit: nat, rec: VectorRecord)
    requires rec in col && Matches(rec.payload, filters)
    ensures var r := Take(Ranking(sqrt, col, query, filters, withVectors), limit);
            HitFor(sqrt, query, rec, withVectors) in r
            || (|r| == limit && forall h :: h in r ==> h.score >= Cosine(sqrt, query, rec.vector))
  {
    var all := Ranking(sqrt, col, query, filters, withVectors);
    RankingMeaning(sqrt, col, query, filters, withVectors);
    var h := HitFor(sqrt, query, rec, withVectors);
    assert h in all;
    var k :| 0 <= k < |all| && all[k] == h;
    if k < limit {
      assert Take(all, limit)[k] == h;
    } else {
      forall g | g in Take(all, limit) ensures g.score >= h.score {
        var i :| 0 <= i < limit && all[i] == g;
        assert ScoreOf(all[i]) >= ScoreOf(all[k]);
      }
    }
  }

  /** Writing to one tenant's collection leaves every other tenant's untouched. */
  lemma UpsertIsolated(store: Store, a: TenantId, b: TenantId, recs: seq<VectorRecord>)
    requires CanonicalUuid(a) && CanonicalUuid(b) && a != b
    ensures CollectionOf(Upserted(store, a, recs), b) == CollectionOf(store, b)
  {
    CollectionNameInjective(a, b);
  }

  /** `InMemoryVectorStore` */
  class InMemoryVectorStore {
    var collections: Store

    constructor ()
      ensures collections == map[]
    {
      collections := map[];
    }

    method EnsureCollection(tenant: TenantId)
      modifies this
      ensures collections == old(collections)[CollectionName(tenant) := CollectionOf(old(collections), tenant)]
    {
      if CollectionName(tenant) !in collections {
        collections := collections[CollectionName(tenant) := []];
      } else {
        assert collections == collections[CollectionName(tenant) := collections[CollectionName(tenant)]];
      }
    }

    method Upsert(tenant: TenantId, records: seq<VectorRecord>)
      modifies this
      ensures collections == Upserted(old(collections), tenant, records)
    {
      EnsureCollection(tenant);
      ghost var start := CollectionOf(collections, tenant);
      for i := 0 to |records|
        invariant collections == old(collections)[CollectionName(tenant) := PutAll(start, records[..i])]
      {
        assert records[..i + 1][..i] == records[..i];
        collections := collections[CollectionName(tenant) := Put(collections[CollectionName(tenant)], records[i])];
      }
      assert records[..|records|] == records;
    }

    method Search(sqrt: real -> real, tenant: TenantId, query: Vector, limit: nat, filters: map<string, Json>, withVectors: bool)
      returns (hits: seq<Hit>)
      ensures hits == Take(Ranking(sqrt, CollectionOf(collections, tenant), query, filters, withVectors), limit)
    {
      var col := CollectionOf(collections, tenant);
      hits := [];
      for i := 0 to |col|
        invariant hits == Hits(sqrt, col[..i], query, filters, withVectors)
      {
        assert col[..i + 1][..i] == col[..i];
        if !Matches(col[i].payload, filters) {
          continue;
        }
        hits := hits + [HitFor(sqrt, query, col[i], withVectors)];
      }
      assert col[..|col|] == col;
      hits := SortDescending(hits, ScoreOf);
      hits := Take(hits, limit);
    }

    method Delete(tenant: TenantId, ids: seq<ItemId>)
      modifies this
      ensures CollectionName(tenant) !in old(collections) ==> collections == old(collections)
      ensures CollectionName(tenant) in old(collections) ==>
                collections == old(collections)[CollectionName(tenant) := DropAll(CollectionOf(old(collections), tenant), ids)]
    {
      var name := CollectionName(tenant);
      if name in collections {
        for i := 0 to |ids|
          invariant collections == old(collections)[name := DropAll(CollectionOf(old(collections), tenant), ids[..i])]
        {
          assert ids[..i + 1][..i] == ids[..i];
          collections := collections[name := Drop(collections[name], ids[i])];
        }
        assert ids[..|ids|] == ids;
      }
    }
  }
}
