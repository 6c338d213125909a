/** The vector store is never behind the rows, and never mixes tenants. */
module PipelineStore {
  import opened Common
  import opened Dedup
  import opened VectorStore
  import opened Ingestion
  import opened Runner
  import opened Catalog
  import opened PipelineRuns

  predicate Referenced(refs: seq<EmbeddingRef>, id: ItemId, tenant: TenantId) {
    exists i :: 0 <= i < |refs| && refs[i].itemId == id && refs[i].collection == CollectionName(tenant) && refs[i].vectorId == id
  }

  /** Every indexed row has a vector under its own id in its own tenant's
      collection, and an embedding reference that says so. */
  ghost predicate Backed(d: Data) {
    forall id :: InIndex(d.rows, id) ==>
      Has(CollectionOf(d.store, d.rows[id].tenant), id) && Referenced(d.refs, id, d.rows[id].tenant)
  }

  /** Collections hold one non-empty vector per id. */
  ghost predicate VectorsOk(store: Store) {
    forall name :: name in store ==> CollectionOk(store[name])
  }

  ghost predicate CollectionOk(col: Collection) {
    UniqueIds(col) && forall r: VectorRecord :: r in col ==> r.vector != []
  }

  /** What lies in a tenant's collection and still has a row is that tenant's. */
  ghost predicate Isolated(d: Data) {
    forall tenant, id :: CanonicalUuid(tenant) && Has(CollectionOf(d.store, tenant), id) && id in d.rows ==> d.rows[id].tenant == tenant
  }

  lemma UpsertOne(store: Store, tenant: TenantId, rec: VectorRecord, other: TenantId)
    ensures CollectionOf(Upserted(store, tenant, [rec]), other)
            == if CollectionName(other) == CollectionName(tenant) then Put(CollectionOf(store, tenant), rec) else CollectionOf(store, other)
  {
    assert [rec][..0] == [];
    assert PutAll(CollectionOf(store, tenant), [rec]) == Put(CollectionOf(store, tenant), rec);
  }

  /** An upsert adds one id to one tenant's collection and removes nothing. */
  lemma UpsertHas(store: Store, tenant: TenantId, rec: VectorRecord, other: TenantId, id: ItemId)
    ensures Has(CollectionOf(Upserted(store, tenant, [rec]), other), id)
            <==> (CollectionName(other) == CollectionName(tenant) && id == rec.id) || Has(CollectionOf(store, other), id)
  {
    UpsertOne(store, tenant, rec, other);
    PutMeaning(CollectionOf(store, tenant), rec);
  }

  lemma UpsertKeepsVectorsOk(store: Store, tenant: TenantId, rec: VectorRecord)
    requires VectorsOk(store) && rec.vector != []
    ensures VectorsOk(Upserted(store, tenant, [rec]))
  {
    UpsertOne(store, tenant, rec, tenant);
    PutMeaning(CollectionOf(store, tenant), rec);
    var store' := Upserted(store, tenant, [rec]);
    forall name | name in store' ensures CollectionOk(store'[name]) {
      if name == CollectionName(tenant) {
        assert store'[name] == Put(CollectionOf(store, tenant), rec);
      }
    }
  }

  /** No attempt adds or removes a row or changes its tenant. */
  lemma TenantsStay(d: Data, id: ItemId, a: Attempt, th: int, listing: seq<Entry>)
    ensures var rows' := RunOnce(d, id, a, th, listing).0.rows;
            rows'.Keys == d.rows.Keys && forall x :: x in d.rows ==> rows'[x].tenant == d.rows[x].tenant
  {
    AttemptRows(d, id, a, th, listing);
  }

  /** What an attempt may have put into some tenant's collection is its own item,
      and only into its own tenant's. */
  lemma AttemptHas(d: Data, id: ItemId, a: Attempt, th: int, listing: seq<Entry>, tenant: TenantId, x: ItemId)
    requires RowsOk(d.rows) && CanonicalUuid(tenant)
    ensures Has(CollectionOf(RunOnce(d, id, a, th, listing).0.store, tenant), x) ==>
              Has(CollectionOf(d.store, tenant), x) || (x == id && id in d.rows && d.rows[id].tenant == tenant)
  {
    AttemptStore(d, id, a, th, listing);
    if id in d.rows {
      CollectionNameInjective(tenant, d.rows[id].tenant);
      if AsksForListing(d, id, a) {
        UpsertHas(d.store, d.rows[id].tenant, RecordFor(id, d.rows[id], a.embed.value), tenant, x);
      }
    }
  }

  lemma {:induction false} AttemptKeepsIsolated(d: Data, id: ItemId, a: Attempt, th: int, listing: seq<Entry>)
    requires RowsOk(d.rows) && Isolated(d)
    ensures Isolated(RunOnce(d, id, a, th, listing).0)
  {
    TenantsStay(d, id, a, th, listing);
    var d' := RunOnce(d, id, a, th, listing).0;
    forall tenant, x | CanonicalUuid(tenant) && Has(CollectionOf(d'.store, tenant), x) && x in d'.rows
      ensures d'.rows[x].tenant == tenant
    {
      AttemptHas(d, id, a, th, listing, tenant, x);
    }
  }

  lemma {:induction false} AttemptKeepsVectorsOk(d: Data, id: ItemId, a: Attempt, th: int, listing: seq<Entry>)
    requires VectorsOk(d.store)
    ensures VectorsOk(RunOnce(d, id, a, th, listing).0.store)
  {
    AttemptCases(d, id, a, th, listing);
    if AsksForListing(d, id, a) {
      UpsertKeepsVectorsOk(d.store, d.rows[id].tenant, RecordFor(id, d.rows[id], a.embed.value));
    }
  }

  lemma {:induction false} AttemptKeepsBacked(d: Data, id: ItemId, a: Attempt, th: int, listing: seq<Entry>)
    requires Backed(d)
    ensures Backed(RunOnce(d, id, a, th, listing).0)
  {
    AttemptCases(d, id, a, th, listing);
    var (d', exit) := RunOnce(d, id, a, th, listing);
    forall x | InIndex(d'.rows, x)
      ensures Has(CollectionOf(d'.store, d'.rows[x].tenant), x) && Referenced(d'.refs, x, d'.rows[x].tenant)
    {
      assert x in d.rows && d'.rows[x].tenant == d.rows[x].tenant;
      if AsksForListing(d, id, a) {
        UpsertHas(d.store, d.rows[id].tenant, RecordFor(id, d.rows[id], a.embed.value), d.rows[x].tenant, x);
      }
      if exit == Returned(IndexedNow) {
        if x == id {
          assert d'.refs[|d.refs|].itemId == id;
        } else {
          var i :| 0 <= i < |d.refs| && d.refs[i].itemId == x && d.refs[i].collection == CollectionName(d.rows[x].tenant) && d.refs[i].vectorId == x;
          assert d'.refs[i] == d.refs[i];
        }
      }
    }
  }

  lemma {:induction false} CascadeKeeps(refs: seq<EmbeddingRef>, gone: ItemId, id: ItemId, tenant: TenantId)
    requires id != gone && Referenced(refs, id, tenant)
    ensures Referenced(RefsWithout(refs, gone), id, tenant)
  {
    var i :| 0 <= i < |refs| && refs[i].itemId == id && refs[i].collection == CollectionName(tenant) && refs[i].vectorId == id;
    FilterIn(refs, (r: EmbeddingRef) => r.itemId != gone, refs[i]);
    assert refs[i] in RefsWithout(refs, gone);
  }

  lemma NotStored(store: Store, id: ItemId, tenant: TenantId)
    requires forall name :: name in store ==> !Has(store[name], id)
    ensures !Has(CollectionOf(store, tenant), id)
  {
  }

  ghost predicate StoreInv(d: Data) { RowsOk(d.rows) && Backed(d) && VectorsOk(d.store) && Isolated(d) }

  lemma {:induction false} CatalogKeepsStoreInv(w: World, s: Step, cfg: Settings)
    requires StoreInv(w.data) && Legal(w, s) && !s.Work?
    ensures StoreInv(Apply(w, s, cfg).data)
  {
    var d, d' := w.data, Apply(w, s, cfg).data;
    assert d'.store == d.store;
    forall id | InIndex(d'.rows, id) ensures Referenced(d'.refs, id, d'.rows[id].tenant) {
      if s.Delete? && Owned(d.rows, s.tenant, s.id) {
        CascadeKeeps(d.refs, s.id, id, d.rows[id].tenant);
      }
    }
    forall tenant, id | CanonicalUuid(tenant) && Has(CollectionOf(d'.store, tenant), id) && id in d'.rows
      ensures d'.rows[id].tenant == tenant
    {
      if s.Register? {
        NotStored(d.store, s.id, tenant);
      }
    }
  }

  lemma {:induction false} StepKeepsStoreInv(w: World, s: Step, cfg: Settings)
    requires StoreInv(w.data) && Legal(w, s)
    ensures StoreInv(Apply(w, s, cfg).data)
  {
    if s.Work? {
      TurnData(w, s.env, cfg, s.listing);
      if NextJob(w).Some? {
        var id := NextJob(w).value.itemId;
        AttemptKeepsIsolated(w.data, id, s.env.attempt, cfg.threshold, s.listing);
        AttemptKeepsVectorsOk(w.data, id, s.env.attempt, cfg.threshold, s.listing);
        AttemptKeepsBacked(w.data, id, s.env.attempt, cfg.threshold, s.listing);
        AttemptKeepsRowsOk(w.data, id, s.env.attempt, cfg.threshold, s.listing);
      }
    } else {
      CatalogKeepsStoreInv(w, s, cfg);
    }
  }

  lemma AttemptKeepsRowsOk(d: Data, id: ItemId, a: Attempt, th: int, listing: seq<Entry>)
    requires RowsOk(d.rows)
    ensures RowsOk(RunOnce(d, id, a, th, listing).0.rows)
  {
    AttemptCases(d, id, a, th, listing);
  }

  /** In every reachable state, with faults anywhere (download, embedding, vector
      store, database, commit): indexed rows are backed by a vector and a
      reference, stored vectors are non-empty and unique per id, and no tenant's
      collection holds another tenant's item. */
  lemma {:induction false} StoreNeverBehind(steps: seq<Step>, cfg: Settings)
    requires LegalRun(steps, cfg)
    ensures StoreInv(Run(steps, cfg).data)
  {
    if steps != [] {
      StoreNeverBehind(steps[..|steps| - 1], cfg);
      StepKeepsStoreInv(Run(steps[..|steps| - 1], cfg), steps[|steps| - 1], cfg);
    }
  }
}
