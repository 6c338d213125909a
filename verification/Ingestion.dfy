/** Processing one ingestion job: the catalog rows a unit of work may roll back,
    the vector store and version counters it may not, and the order in which one
    attempt touches them. */
module Ingestion {
  import opened Common
  import opened Dedup
  import opened VectorStore
  import opened IndexVersions

  // ---- Catalog rows ----

  datatype Status = PendingUpload | Queued | Processing | Indexed | Duplicate | Failed

  datatype FailureReason = PermanentFailure(message: string) | Exhausted(attempts: int, message: string)

  datatype Row = Row(tenant: TenantId, objectKey: string, externalId: Option<string>, metadata: map<string, Json>,
                     status: Status, phash: Option<string>, duplicateOf: Option<ItemId>,
                     failure: Option<FailureReason>, indexedAt: Option<nat>, size: Option<nat>)

  type Rows = map<ItemId, Row>

  datatype EmbeddingRef = EmbeddingRef(itemId: ItemId, collection: string, vectorId: ItemId, modelVersion: string)

  /** `_update`: an unknown id is ignored. */
  function Updated(rows: Rows, id: ItemId, row: Row): Rows {
    if id in rows then rows[id := row] else rows
  }

  function MarkProcessing(rows: Rows, id: ItemId): Rows
    requires id in rows
  {
    Updated(rows, id, rows[id].(status := Processing))
  }

  function MarkIndexed(rows: Rows, id: ItemId, phash: string, now: nat): Rows
    requires id in rows
  {
    Updated(rows, id, rows[id].(status := Indexed, phash := Some(phash), indexedAt := Some(now), failure := None))
  }

  function MarkDuplicate(rows: Rows, id: ItemId, phash: string, original: ItemId): Rows
    requires id in rows
  {
    Updated(rows, id, rows[id].(status := Duplicate, phash := Some(phash), duplicateOf := Some(original)))
  }

  function MarkFailed(rows: Rows, id: ItemId, reason: FailureReason): Rows {
    if id in rows then rows[id := rows[id].(status := Failed, failure := Some(reason))] else rows
  }

  // ---- The dedup listing ----

  predicate Listed(row: Row, tenant: TenantId) {
    row.tenant == tenant && row.status.Indexed? && row.phash.Some?
  }

  /** NULL sorts first in a descending order. */
  predicate NotOlder(a: Row, b: Row) {
    a.indexedAt.None? || (b.indexedAt.Some? && a.indexedAt.value >= b.indexedAt.value)
  }

  /** What `list_indexed_phashes` may return: each listed row of the tenant once,
      most recently indexed first, ties in any order. */
  ghost predicate IsListing(rows: Rows, tenant: TenantId, listing: seq<Entry>) {
    && (forall i :: 0 <= i < |listing| ==>
          listing[i].0 in rows && Listed(rows[listing[i].0], tenant) && rows[listing[i].0].phash == Some(listing[i].1))
    && (forall id :: id in rows && Listed(rows[id], tenant) ==> (id, rows[id].phash.value) in listing)
    && (forall i, j :: 0 <= i < j < |listing| ==> listing[i].0 != listing[j].0)
    && (forall i, j :: 0 <= i < j < |listing| && listing[i].0 in rows && listing[j].0 in rows ==>
          NotOlder(rows[listing[i].0], rows[listing[j].0]))
  }

  // ---- What the outside world answers during one attempt ----

  datatype Fault = Transient(message: string) | Permanent(message: string)

  /** The database call of the unit of work that raises, if any. */
  datatype DbFault = DbUp | AtGet | AtMarkProcessing | AtList | AtMark | AtCommit

  /** A failed upsert may or may not have reached the store. */
  datatype StoreFault = VectorsUp | EnsureFails | UpsertFails(applied: bool)

  datatype Embedding = Embedding(vector: Vector, phash: string, modelVersion: string)

  datatype Attempt = Attempt(db: DbFault, download: Result<Bytes, Fault>, embed: Result<Embedding, Fault>,
                             vectors: StoreFault, bumpFails: bool, now: nat)

  // ---- One attempt as a function ----

  datatype Data = Data(rows: Rows, refs: seq<EmbeddingRef>, store: Store, versions: Versions)

  datatype Outcome = IndexedNow | DuplicateOf(original: ItemId) | Skipped
  datatype Exit = Returned(outcome: Outcome) | Raised(fault: Fault)

  const DATABASE_ERROR := Transient("database error")
  const VECTOR_STORE_ERROR := Transient("vector store error")
  const NOT_HEX_ERROR := Transient("hash is not hexadecimal")
  const EMPTY_VECTOR_ERROR := Permanent("embedding provider returned an empty vector")

  /** The fields every payload starts with. */
  function BasePayload(id: ItemId, row: Row): map<string, Json> {
    var base := map["item_id" := Str(id)];
    if row.externalId.Some? && row.externalId.value != "" then base["external_id" := Str(row.externalId.value)] else base
  }

  /** Only scalars become payload values; a metadata key may shadow the two
      standard ones. */
  function SearchPayload(id: ItemId, row: Row): map<string, Json> {
    BasePayload(id, row) + Scalars(row.metadata, row.metadata.Keys)
  }

  /** The scalar entries among `keys`. */
  function Scalars(metadata: map<string, Json>, keys: set<string>): map<string, Json> {
    map k | k in keys && k in metadata && Scalar(metadata[k]) :: metadata[k]
  }

  lemma NoScalars(base: map<string, Json>, metadata: map<string, Json>)
    ensures base + Scalars(metadata, {}) == base
  {
  }

  lemma ScalarsStep(base: map<string, Json>, metadata: map<string, Json>, keys: set<string>, key: string)
    requires key in metadata && key !in keys
    ensures base + Scalars(metadata, keys + {key})
            == if Scalar(metadata[key]) then (base + Scalars(metadata, keys))[key := metadata[key]] else base + Scalars(metadata, keys)
  {
  }

  predicate Scalar(j: Json) { j.Bool? || j.Num? || j.Str? }

  function RecordFor(id: ItemId, row: Row, e: Embedding): VectorRecord {
    VectorRecord(id, e.vector, SearchPayload(id, row))
  }

  function Ensured(store: Store, tenant: TenantId): Store {
    store[CollectionName(tenant) := CollectionOf(store, tenant)]
  }

  /** Not a duplicate: vector first, then the row and its reference, then the
      best-effort version bump. */
  function IndexItem(d: Data, id: ItemId, row: Row, e: Embedding, a: Attempt): (Data, Exit)
    requires id in d.rows
  {
    match a.vectors
    case EnsureFails => (d, Raised(VECTOR_STORE_ERROR))
    case UpsertFails(applied) =>
      (d.(store := if applied then Upserted(d.store, row.tenant, [RecordFor(id, row, e)]) else Ensured(d.store, row.tenant)),
       Raised(VECTOR_STORE_ERROR))
    case VectorsUp =>
      var d1 := d.(store := Upserted(d.store, row.tenant, [RecordFor(id, row, e)]));
      if a.db.AtMark? then (d1, Raised(DATABASE_ERROR))
      else
        (d1.(rows := MarkIndexed(d.rows, id, e.phash, a.now),
             refs := d.refs + [EmbeddingRef(id, CollectionName(row.tenant), id, e.modelVersion)],
             versions := if a.bumpFails then d.versions else Bumped(d.versions, row.tenant)),
         Returned(IndexedNow))
  }

  function Decide(d: Data, id: ItemId, row: Row, e: Embedding, a: Attempt, threshold: int, listing: seq<Entry>): (Data, Exit)
    requires id in d.rows
  {
    if e.vector == [] then (d, Raised(EMPTY_VECTOR_ERROR))
    else if a.db.AtList? then (d, Raised(DATABASE_ERROR))
    else match FindDuplicate(e.phash, listing, threshold)
      case Err(_) => (d, Raised(NOT_HEX_ERROR))
      case Ok(Some(original)) =>
        if a.db.AtMark? then (d, Raised(DATABASE_ERROR))
        else (d.(rows := MarkDuplicate(d.rows, id, e.phash, original)), Returned(DuplicateOf(original)))
      case Ok(None) => IndexItem(d, id, row, e, a)
  }

  /** `IngestionProcessor.process` inside its session. */
  function Process(d: Data, id: ItemId, a: Attempt, threshold: int, listing: seq<Entry>): (Data, Exit) {
    if a.db.AtGet? then (d, Raised(DATABASE_ERROR))
    else if id !in d.rows || d.rows[id].status.Indexed? then (d, Returned(Skipped))
    else if a.db.AtMarkProcessing? then (d, Raised(DATABASE_ERROR))
    else
      var d1 := d.(rows := MarkProcessing(d.rows, id));
      match a.download
      case Err(f) => (d1, Raised(f))
      case Ok(_) =>
        match a.embed
        case Err(f) => (d1, Raised(f))
        case Ok(e) => Decide(d1, id, d.rows[id], e, a, threshold, listing)
  }

  /** The attempt gets as far as asking for the listing. */
  predicate AsksForListing(d: Data, id: ItemId, a: Attempt) {
    && (a.db.DbUp? || a.db.AtMark? || a.db.AtCommit?)
    && id in d.rows && !d.rows[id].status.Indexed?
    && a.download.Ok? && a.embed.Ok? && a.embed.value.vector != []
  }

  /** The database's answer is a listing of the rows as the session sees them. */
  ghost predicate LegalListing(d: Data, id: ItemId, a: Attempt, listing: seq<Entry>) {
    AsksForListing(d, id, a) ==> IsListing(MarkProcessing(d.rows, id), d.rows[id].tenant, listing)
  }

  /** `_run_once`: the unit of work commits the rows or restores them; vectors and
      counters stay as they are. */
  function RunOnce(d: Data, id: ItemId, a: Attempt, threshold: int, listing: seq<Entry>): (Data, Exit) {
    var (d', exit) := Process(d, id, a, threshold, listing);
    if exit.Raised? then (d'.(rows := d.rows, refs := d.refs), exit)
    else if a.db.AtCommit? then (d'.(rows := d.rows, refs := d.refs), Raised(DATABASE_ERROR))
    else (d', exit)
  }

  // ---- The classes ----

  /** The two tables, as committed. */
  class Database {
    var rows: Rows
    var refs: seq<EmbeddingRef>

    constructor ()
      ensures rows == map[] && refs == []
    {
      rows, refs := map[], [];
    }
  }

  /** `SqlAlchemyItemStore` with its session: a private copy until commit. */
  class SqlAlchemyItemStore {
    const db: Database
    var rows: Rows
    var refs: seq<EmbeddingRef>

    constructor (db: Database)
      ensures this.db == db && rows == db.rows && refs == db.refs
    {
      this.db, rows, refs := db, db.rows, db.refs;
    }

    method Update(id: ItemId, row: Row)
      modifies this`rows
      ensures rows == Updated(old(rows), id, row)
    {
      if id in rows {
        rows := rows[id := row];
      }
    }

    method SetProcessing(id: ItemId)
      requires id in rows
      modifies this`rows
      ensures rows == MarkProcessing(old(rows), id)
    {
      Update(id, rows[id].(status := Processing));
    }

    method SetIndexed(id: ItemId, phash: string, collection: string, vectorId: ItemId, modelVersion: string, now: nat)
      requires id in rows
      modifies this`rows, this`refs
      ensures rows == MarkIndexed(old(rows), id, phash, now)
      ensures refs == old(refs) + [EmbeddingRef(id, collection, vectorId, modelVersion)]
    {
      Update(id, rows[id].(status := Indexed, phash := Some(phash), indexedAt := Some(now), failure := None));
      refs := refs + [EmbeddingRef(id, collection, vectorId, modelVersion)];
    }

    method SetDuplicate(id: ItemId, phash: string, original: ItemId)
      requires id in rows
      modifies this`rows
      ensures rows == MarkDuplicate(old(rows), id, phash, original)
    {
      Update(id, rows[id].(status := Duplicate, phash := Some(phash), duplicateOf := Some(original)));
    }

    method SetFailed(id: ItemId, reason: FailureReason)
      modifies this`rows
      ensures rows == MarkFailed(old(rows), id, reason)
    {
      if id in rows {
        Update(id, rows[id].(status := Failed, failure := Some(reason)));
      }
    }

    method ListIndexedPhashes(tenant: TenantId) returns (listing: seq<Entry>)
      ensures IsListing(rows, tenant, listing)
    {
      listing := [];
      var left := set id | id in rows && Listed(rows[id], tenant);
      while left != {}
        invariant PartialListing(rows, tenant, listing, left)
        decreases |left|
      {
        NewestExists(rows, left);
        var newest :| newest in left && forall id :: id in left ==> NotOlder(rows[newest], rows[id]);
        ExtendListing(rows, tenant, listing, left, newest);
        listing := listing + [(newest, rows[newest].phash.value)];
        left := left - {newest};
      }
    }

    method Commit()
      modifies db
      ensures db.rows == rows && db.refs == refs
    {
      db.rows, db.refs := rows, refs;
    }
  }

  /** A listing of all but the rows in `left`, which are no newer. */
  ghost predicate PartialListing(rows: Rows, tenant: TenantId, listing: seq<Entry>, left: set<ItemId>) {
    && (forall id :: id in left ==> id in rows && Listed(rows[id], tenant))
    && (forall i :: 0 <= i < |listing| ==>
          listing[i].0 in rows && Listed(rows[listing[i].0], tenant) && rows[listing[i].0].phash == Some(listing[i].1))
    && (forall i :: 0 <= i < |listing| ==> listing[i].0 !in left)
    && (forall id :: id in rows && Listed(rows[id], tenant) && id !in left ==> (id, rows[id].phash.value) in listing)
    && (forall i, j :: 0 <= i < j < |listing| ==> listing[i].0 != listing[j].0)
    && (forall i, j :: 0 <= i < j < |listing| && listing[i].0 in rows && listing[j].0 in rows ==>
          NotOlder(rows[listing[i].0], rows[listing[j].0]))
    && (forall i, id :: 0 <= i < |listing| && listing[i].0 in rows && id in left && id in rows ==>
          NotOlder(rows[listing[i].0], rows[id]))
  }

  lemma {:induction false} ExtendListing(rows: Rows, tenant: TenantId, listing: seq<Entry>, left: set<ItemId>, newest: ItemId)
    requires PartialListing(rows, tenant, listing, left) && newest in left
    requires forall id :: id in left && id in rows ==> NotOlder(rows[newest], rows[id])
    ensures PartialListing(rows, tenant, listing + [(newest, rows[newest].phash.value)], left - {newest})
  {
    var longer := listing + [(newest, rows[newest].phash.value)];
    assert longer[|listing|] == (newest, rows[newest].phash.value);
    forall id | id in rows && Listed(rows[id], tenant) && id !in left - {newest}
      ensures (id, rows[id].phash.value) in longer
    {
      if id != newest { assert (id, rows[id].phash.value) in listing; }
    }
  }

  lemma {:induction false} NewestExists(rows: Rows, ids: set<ItemId>)
    requires ids != {} && forall id :: id in ids ==> id in rows
    ensures exists n :: n in ids && forall id :: id in ids ==> NotOlder(rows[n], rows[id])
    decreases |ids|
  {
    var x :| x in ids;
    var rest := ids - {x};
    if rest == {} {
      assert ids == {x};
      assert NotOlder(rows[x], rows[x]);
    } else {
      NewestExists(rows, rest);
      var n :| n in rest && forall id :: id in rest ==> NotOlder(rows[n], rows[id]);
      var m := if NotOlder(rows[n], rows[x]) then n else x;
      assert forall id :: id in ids ==> NotOlder(rows[m], rows[id]);
    }
  }

  /** `RedisIndexVersionBumper` */
  class RedisIndexVersionBumper {
    const client: RedisCounters

    constructor (client: RedisCounters)
      ensures this.client == client
    {
      this.client := client;
    }

    method Bump(tenant: TenantId)
      modifies client
      ensures client.versions == Bumped(old(client.versions), tenant)
    {
      client.Increment(tenant);
    }
  }

  /** `_search_payload`: the metadata loop, in whatever order the dictionary has. */
  method BuildPayload(id: ItemId, row: Row) returns (payload: map<string, Json>)
    ensures payload == SearchPayload(id, row)
  {
    payload := map["item_id" := Str(id)];
    if row.externalId.Some? && row.externalId.value != "" {
      payload := payload["external_id" := Str(row.externalId.value)];
    }
    NoScalars(payload, row.metadata);
    var done, left: set<string> := {}, row.metadata.Keys;
    while left != {}
      invariant done + left == row.metadata.Keys && done !! left
      invariant payload == BasePayload(id, row) + Scalars(row.metadata, done)
      decreases left
    {
      var key :| key in left;
      ScalarsStep(BasePayload(id, row), row.metadata, done, key);
      if Scalar(row.metadata[key]) {
        payload := payload[key := row.metadata[key]];
      }
      done, left := done + {key}, left - {key};
    }
    assert done == row.metadata.Keys;
  }

  class IngestionProcessor {
    const items: SqlAlchemyItemStore
    const vectors: InMemoryVectorStore
    const bumper: RedisIndexVersionBumper
    const threshold: int

    constructor (items: SqlAlchemyItemStore, vectors: InMemoryVectorStore, bumper: RedisIndexVersionBumper, threshold: int)
      ensures this.items == items && this.vectors == vectors && this.bumper == bumper && this.threshold == threshold
    {
      this.items, this.vectors, this.bumper, this.threshold := items, vectors, bumper, threshold;
    }

    function Session(): Data
      reads items, vectors, bumper.client
    {
      Data(items.rows, items.refs, vectors.collections, bumper.client.versions)
    }

    method ProcessItem(id: ItemId, a: Attempt) returns (exit: Exit, ghost listing: seq<Entry>)
      modifies items`rows, items`refs, vectors, bumper.client
      ensures (Session(), exit) == Process(old(Session()), id, a, threshold, listing)
      ensures LegalListing(old(Session()), id, a, listing)
    {
      listing := [];
      if a.db.AtGet? {
        return Raised(DATABASE_ERROR), listing;
      }
      if id !in items.rows || items.rows[id].status.Indexed? {
        return Returned(Skipped), listing;
      }
      var item := items.rows[id];
      if a.db.AtMarkProcessing? {
        return Raised(DATABASE_ERROR), listing;
      }
      items.SetProcessing(id);
      if a.download.Err? {
        return Raised(a.download.error), listing;
      }
      if a.embed.Err? {
        return Raised(a.embed.error), listing;
      }
      var e := a.embed.value;
      if e.vector == [] {
        return Raised(EMPTY_VECTOR_ERROR), listing;
      }
      if a.db.AtList? {
        return Raised(DATABASE_ERROR), listing;
      }
      var existing := items.ListIndexedPhashes(item.tenant);
      listing := existing;
      var duplicateOf := FindClosest(e.phash, existing, threshold);
      if duplicateOf.Err? {
        return Raised(NOT_HEX_ERROR), listing;
      }
      if duplicateOf.value.Some? {
        if a.db.AtMark? {
          return Raised(DATABASE_ERROR), listing;
        }
        items.SetDuplicate(id, e.phash, duplicateOf.value.value);
        return Returned(DuplicateOf(duplicateOf.value.value)), listing;
      }
      exit := Index(id, item, e, a);
    }

    method Index(id: ItemId, item: Row, e: Embedding, a: Attempt) returns (exit: Exit)
      requires id in items.rows
      modifies items`rows, items`refs, vectors, bumper.client
      ensures (Session(), exit) == IndexItem(old(Session()), id, item, e, a)
    {
      if a.vectors.EnsureFails? {
        return Raised(VECTOR_STORE_ERROR);
      }
      vectors.EnsureCollection(item.tenant);
      var payload := BuildPayload(id, item);
      if a.vectors.UpsertFails? && !a.vectors.applied {
        return Raised(VECTOR_STORE_ERROR);
      }
      vectors.Upsert(item.tenant, [VectorRecord(id, e.vector, payload)]);
      assert vectors.collections == Upserted(old(vectors.collections), item.tenant, [RecordFor(id, item, e)]);
      if a.vectors.UpsertFails? {
        return Raised(VECTOR_STORE_ERROR);
      }
      if a.db.AtMark? {
        return Raised(DATABASE_ERROR);
      }
      items.SetIndexed(id, e.phash, CollectionName(item.tenant), id, e.modelVersion, a.now);
      if !a.bumpFails {
        bumper.Bump(item.tenant);
      }
      exit := Returned(IndexedNow);
    }
  }
}
