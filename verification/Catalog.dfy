/** The catalog-service side of the pipeline: confirming an upload hands the item
    to the worker; deleting an item removes its rows and nothing else. */
module Catalog {
  import opened Common
  import opened Ingestion
  import opened Runner

  datatype CatalogError = ItemNotFound | NotUploaded

  /** `_get_item_or_raise`: another tenant's item does not exist. */
  predicate Owned(rows: Rows, tenant: TenantId, id: ItemId) {
    id in rows && rows[id].tenant == tenant
  }

  /** A fresh job as the producer writes it. */
  function FreshJob(id: ItemId, row: Row): Payload {
    Job(id, Count(0), map["tenant_id" := Str(row.tenant), "object_key" := Str(row.objectKey)])
  }

  /** Whatever its status was, a confirmed item is queued again. */
  function Requeued(row: Row, size: nat): Row {
    row.(status := Queued, size := Some(size), failure := None)
  }

  function Confirmed(w: World, tenant: TenantId, id: ItemId, stat: Option<nat>): (World, Result<Row, CatalogError>) {
    if !Owned(w.data.rows, tenant, id) then (w, Err(ItemNotFound))
    else if stat.None? then (w, Err(NotUploaded))
    else
      var row := Requeued(w.data.rows[id], stat.value);
      (w.(data := w.data.(rows := w.data.rows[id := row]), queue := [FreshJob(id, row)] + w.queue), Ok(row))
  }

  function RefsWithout(refs: seq<EmbeddingRef>, id: ItemId): seq<EmbeddingRef> {
    Filter(refs, (r: EmbeddingRef) => r.itemId != id)
  }

  /** The row goes, and with it, by cascade, its embedding references. */
  function Deleted(w: World, tenant: TenantId, id: ItemId): (World, Result<(), CatalogError>) {
    if !Owned(w.data.rows, tenant, id) then (w, Err(ItemNotFound))
    else (w.(data := w.data.(rows := w.data.rows - {id}, refs := RefsWithout(w.data.refs, id))), Ok(()))
  }

  /** Exactly an owned item whose object is in storage is confirmed: its row becomes
      queued with the object's size and no failure reason, and a job with no
      attempts behind it goes to the back of the queue. Nothing else changes. */
  lemma ConfirmExactly(w: World, tenant: TenantId, id: ItemId, stat: Option<nat>)
    ensures var (w', r) := Confirmed(w, tenant, id, stat);
            if id !in w.data.rows || w.data.rows[id].tenant != tenant then w' == w && r == Err(ItemNotFound)
            else if stat.None? then w' == w && r == Err(NotUploaded)
            else
              && w'.data.rows == w.data.rows[id := w.data.rows[id].(status := Queued, size := stat, failure := None)]
              && r == Ok(w'.data.rows[id])
              && |w'.queue| == |w.queue| + 1 && w'.queue[1..] == w.queue
              && w'.queue[0].Job? && w'.queue[0].itemId == id && w'.queue[0].attempts == Count(0)
              && w' == w.(data := w.data.(rows := w'.data.rows), queue := w'.queue)
  {
  }

  /** Deleting an owned item removes its row and every reference to it, keeps all
      others in order, and leaves vectors, counters, queue and dead letters alone. */
  lemma DeleteExactly(w: World, tenant: TenantId, id: ItemId)
    ensures var (w', r) := Deleted(w, tenant, id);
            if id !in w.data.rows || w.data.rows[id].tenant != tenant then w' == w && r == Err(ItemNotFound)
            else
              && r == Ok(()) && w'.data.rows == w.data.rows - {id}
              && (forall ref :: ref in w'.data.refs <==> ref in w.data.refs && ref.itemId != id)
              && w' == w.(data := w.data.(rows := w'.data.rows, refs := w'.data.refs))
  {
    forall ref ensures ref in RefsWithout(w.data.refs, id) <==> ref in w.data.refs && ref.itemId != id {
      FilterIn(w.data.refs, (r: EmbeddingRef) => r.itemId != id, ref);
    }
  }

  class CatalogUseCases {
    const db: Database
    const queue: RedisList

    constructor (db: Database, queue: RedisList)
      ensures this.db == db && this.queue == queue
    {
      this.db, this.queue := db, queue;
    }

    /** `ConfirmCatalogItemUpload`; `stat` is what object storage says about the
        object, `runner` the worker that shares the tables and the queue. */
    method ConfirmUpload(tenant: TenantId, id: ItemId, stat: Option<nat>, ghost runner: IngestionRunner)
      returns (r: Result<Row, CatalogError>)
      requires runner.Valid() && runner.db == db && runner.queue == queue
      modifies db`rows, queue
      ensures (runner.Snapshot(), r) == Confirmed(old(runner.Snapshot()), tenant, id, stat)
    {
      if id !in db.rows || db.rows[id].tenant != tenant {
        return Err(ItemNotFound);
      }
      if stat.None? {
        return Err(NotUploaded);
      }
      var item := db.rows[id];
      item := item.(status := Queued, size := stat, failure := None);
      db.rows := db.rows[id := item];
      queue.LeftPush(FreshJob(id, item));
      r := Ok(item);
    }

    method DeleteItem(tenant: TenantId, id: ItemId, ghost runner: IngestionRunner) returns (r: Result<(), CatalogError>)
      requires runner.Valid() && runner.db == db
      modifies db
      ensures (runner.Snapshot(), r) == Deleted(old(runner.Snapshot()), tenant, id)
    {
      if id !in db.rows || db.rows[id].tenant != tenant {
        return Err(ItemNotFound);
      }
      db.rows := db.rows - {id};
      db.refs := RefsWithout(db.refs, id);
      r := Ok(());
    }
  }
}
