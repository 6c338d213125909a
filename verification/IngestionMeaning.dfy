/** One attempt, spelled out: how each fault ends it, what it writes field by
    field, and what can be searched afterwards. */
module IngestionMeaning {
  import opened Common
  import opened PerceptualHash
  import opened Dedup
  import opened VectorStore
  import opened IndexVersions
  import opened Ingestion

  // ---- The payload, key by key ----

  predicate Filterable(j: Json) { j.Str? || j.Num? || j.Bool? }

  predicate FromMetadata(row: Row, k: string) { k in row.metadata && Filterable(row.metadata[k]) }

  /** The id, a non-empty external id, every string, number and boolean of the
      metadata, and nothing else; metadata wins. */
  lemma PayloadMeaning(id: ItemId, row: Row)
    ensures var p := SearchPayload(id, row);
            && (forall k :: k in p <==> k == "item_id" || (k == "external_id" && row.externalId.Some? && row.externalId.value != "") || FromMetadata(row, k))
            && (forall k :: FromMetadata(row, k) ==> p[k] == row.metadata[k])
            && (!FromMetadata(row, "item_id") ==> p["item_id"] == Str(id))
            && (row.externalId.Some? && row.externalId.value != "" && !FromMetadata(row, "external_id") ==>
                  p["external_id"] == Str(row.externalId.value))
  {
  }

  // ---- How an attempt ends ----

  /** There is something to do: the row exists and is not indexed. */
  predicate Open(rows: Rows, id: ItemId) { id in rows && !rows[id].status.Indexed? }

  /** The attempt downloads. */
  predicate Downloads(d: Data, id: ItemId, a: Attempt) {
    Open(d.rows, id) && a.db != AtGet && a.db != AtMarkProcessing
  }

  /** The image was fetched and embedded into a proper vector. */
  predicate Embedded(d: Data, id: ItemId, a: Attempt) {
    Downloads(d, id, a) && a.download.Ok? && a.embed.Ok? && a.embed.value.vector != []
  }

  /** Exactly when an attempt is skipped, indexes, or finds a duplicate. */
  lemma ReturnsExactly(d: Data, id: ItemId, a: Attempt, th: int, listing: seq<Entry>)
    ensures var exit := RunOnce(d, id, a, th, listing).1;
            && (exit == Returned(Skipped) <==> !Open(d.rows, id) && a.db != AtGet && a.db != AtCommit)
            && (exit == Returned(IndexedNow) <==>
                  Embedded(d, id, a) && a.db == DbUp && a.vectors == VectorsUp && AllFarApart(a.embed.value.phash, listing, th, 0))
            && (forall o :: exit == Returned(DuplicateOf(o)) <==>
                  Embedded(d, id, a) && a.db == DbUp && FindDuplicate(a.embed.value.phash, listing, th) == Ok(Some(o)))
  {
    if a.embed.Ok? { var _ := FindDuplicateMeaning(a.embed.value.phash, listing, th); }
  }

  /** Exactly when the fault is permanent; faults of download and embedding are
      passed on as they are, every other fault is transient. */
  lemma RaisesExactly(d: Data, id: ItemId, a: Attempt, th: int, listing: seq<Entry>)
    ensures var exit := RunOnce(d, id, a, th, listing).1;
            && (Downloads(d, id, a) && a.download.Err? ==> exit == Raised(a.download.error))
            && (Downloads(d, id, a) && a.download.Ok? && a.embed.Err? ==> exit == Raised(a.embed.error))
            && (forall m :: exit == Raised(Permanent(m)) <==>
                  Downloads(d, id, a)
                  && (a.download == Err(Permanent(m))
                      || (a.download.Ok? && a.embed == Err(Permanent(m)))
                      || (a.download.Ok? && a.embed.Ok? && a.embed.value.vector == [] && m == "embedding provider returned an empty vector")))
  {
  }

  // ---- What an attempt writes ----

  /** Of the rows: nothing if it raised or was skipped, else this one row. */
  lemma RowsWritten(d: Data, id: ItemId, a: Attempt, th: int, listing: seq<Entry>)
    ensures var (d', exit) := RunOnce(d, id, a, th, listing);
            match exit
            case Returned(IndexedNow) =>
              id in d.rows && a.embed.Ok?
              && d'.rows == d.rows[id := d.rows[id].(status := Indexed, phash := Some(a.embed.value.phash), indexedAt := Some(a.now), failure := None)]
            case Returned(DuplicateOf(o)) =>
              id in d.rows && a.embed.Ok?
              && d'.rows == d.rows[id := d.rows[id].(status := Duplicate, phash := Some(a.embed.value.phash), duplicateOf := Some(o))]
            case _ => d'.rows == d.rows
  {
  }

  /** Of everything else: a newly indexed item has one reference more, its counter
      is one higher unless the bump failed, and its collection holds its own vector
      under its id with its payload. Otherwise references and counters stay. */
  lemma RestWritten(d: Data, id: ItemId, a: Attempt, th: int, listing: seq<Entry>)
    ensures var (d', exit) := RunOnce(d, id, a, th, listing);
            if exit == Returned(IndexedNow) then
              && id in d.rows && a.embed.Ok?
              && var tenant := d.rows[id].tenant;
              && d'.refs == d.refs + [EmbeddingRef(id, CollectionName(tenant), id, a.embed.value.modelVersion)]
              && (forall u :: VersionOf(d'.versions, u) == VersionOf(d.versions, u) + if u == tenant && !a.bumpFails then 1 else 0)
              && VectorRecord(id, a.embed.value.vector, SearchPayload(id, d.rows[id])) in CollectionOf(d'.store, tenant)
            else d'.refs == d.refs && (exit.Returned? ==> d'.versions == d.versions && d'.store == d.store)
  {
    var (d', exit) := RunOnce(d, id, a, th, listing);
    if exit == Returned(IndexedNow) {
      var tenant, rec := d.rows[id].tenant, RecordFor(id, d.rows[id], a.embed.value);
      BumpMeaning(d.versions, tenant);
      assert [rec][..0] == [];
      assert PutAll(CollectionOf(d.store, tenant), [rec]) == Put(CollectionOf(d.store, tenant), rec);
      assert d'.store == Upserted(d.store, tenant, [rec]);
      assert CollectionOf(d'.store, tenant) == Put(CollectionOf(d.store, tenant), rec);
      PutMeaning(CollectionOf(d.store, tenant), rec);
    }
  }

  /** The counters move in no other case but one: a commit that fails after the bump. */
  lemma BumpsExactly(d: Data, id: ItemId, a: Attempt, th: int, listing: seq<Entry>)
    ensures var (d', exit) := RunOnce(d, id, a, th, listing);
            && (d'.versions != d.versions ==> d'.versions == Bumped(d.versions, d.rows[id].tenant))
            && (d'.versions != d.versions <==>
                  Embedded(d, id, a) && (a.db == DbUp || a.db == AtCommit) && a.vectors == VectorsUp && !a.bumpFails
                  && AllFarApart(a.embed.value.phash, listing, th, 0))
  {
    if a.embed.Ok? { var _ := FindDuplicateMeaning(a.embed.value.phash, listing, th); }
    if id in d.rows { assert VersionOf(Bumped(d.versions, d.rows[id].tenant), d.rows[id].tenant) > VersionOf(d.versions, d.rows[id].tenant); }
  }

  /** The attempt writes its vector: it is no duplicate, and the store takes the
      write (even if it then reports a failure). */
  predicate WritesVector(d: Data, id: ItemId, a: Attempt, th: int, listing: seq<Entry>) {
    && Embedded(d, id, a) && a.db != AtList && FindDuplicate(a.embed.value.phash, listing, th) == Ok(None)
    && (a.vectors == VectorsUp || a.vectors == UpsertFails(true))
  }

  /** Every tenant's collection after an attempt: the item's own vector put into its
      own tenant's if it was written, and no other change. */
  lemma CollectionsExactly(d: Data, id: ItemId, a: Attempt, th: int, listing: seq<Entry>, tenant: TenantId)
    ensures var after := CollectionOf(RunOnce(d, id, a, th, listing).0.store, tenant);
            if WritesVector(d, id, a, th, listing) && CollectionName(d.rows[id].tenant) == CollectionName(tenant)
            then after == Put(CollectionOf(d.store, tenant), VectorRecord(id, a.embed.value.vector, SearchPayload(id, d.rows[id])))
            else after == CollectionOf(d.store, tenant)
  {
    if WritesVector(d, id, a, th, listing) {
      var rec := RecordFor(id, d.rows[id], a.embed.value);
      assert [rec][..0] == [];
      assert PutAll(CollectionOf(d.store, d.rows[id].tenant), [rec]) == Put(CollectionOf(d.store, d.rows[id].tenant), rec);
      assert RunOnce(d, id, a, th, listing).0.store == Upserted(d.store, d.rows[id].tenant, [rec]);
    }
  }

  // ---- Which original is cited ----

  /** Among equally close originals the most recently indexed one is cited. */
  lemma NewestOriginalCited(rows: Rows, tenant: TenantId, phash: string, th: int, listing: seq<Entry>, o: ItemId, x: ItemId)
    requires IsListing(rows, tenant, listing) && FindDuplicate(phash, listing, th) == Ok(Some(o))
    requires x in rows && rows[x].tenant == tenant && rows[x].status.Indexed? && rows[x].phash.Some? && rows[x].phash.value != ""
    ensures o in rows && rows[o].tenant == tenant && rows[o].status.Indexed? && rows[o].phash.Some?
    ensures HammingDistance(phash, rows[x].phash.value) == HammingDistance(phash, rows[o].phash.value) && rows[o].indexedAt.Some? && rows[x].indexedAt.Some? ==>
              rows[o].indexedAt.value >= rows[x].indexedAt.value
  {
    var k := FindDuplicateMeaning(phash, listing, th);
    assert Listed(rows[x], tenant);
    var j :| 0 <= j < |listing| && listing[j] == (x, rows[x].phash.value);
    assert Compared(listing[j]);
    if j < k {
      assert FarApart(phash, listing[j].1, HammingDistance(phash, listing[k].1).value);
    } else if j > k {
      assert NotOlder(rows[listing[k].0], rows[listing[j].0]);
    }
  }
}
