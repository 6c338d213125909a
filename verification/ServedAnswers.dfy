/** What the search service answers: which queries are reranked and with which
    vectors, what its caches save, and that an answer after a bump is fresh. */
module ServedAnswers {
  import opened Common
  import opened VectorStore
  import opened IndexVersions
  import opened Reranking
  import opened SearchPipeline
  import opened SearchService
  import opened Ingestion

  // ---- Which pipeline a query runs ----

  function Wrapped(r: Result<seq<RankedResult>, RerankError>): Result<seq<RankedResult>, SearchError> {
    match r
    case Ok(page) => Ok(page)
    case Err(e) => Err(RerankFailed(e))
  }

  /** A plain query is embedded from its own image or text and reranked exactly if
      asked to and a reranker is there; a composed query embeds its modifier text
      first, and hands that vector to the reranker whenever there is one. */
  lemma QueriesExactly(svc: Service, col: Collection, tenant: TenantId, p: Params, image: Bytes, text: string, rerank: bool)
    requires ValidParams(p)
    ensures Uncached(svc, col, Request(tenant, ByImage(image, rerank), p)) ==
            match svc.embedder.image(image)
            case Err(e) => Err(EmbeddingFailed(e))
            case Ok(v) => Wrapped(Pipeline(svc.arith, col, v, p, rerank && svc.hasReranker, None))
    ensures Uncached(svc, col, Request(tenant, ByText(text, rerank), p)) ==
            match svc.embedder.text(text)
            case Err(e) => Err(EmbeddingFailed(e))
            case Ok(v) => Wrapped(Pipeline(svc.arith, col, v, p, rerank && svc.hasReranker, None))
    ensures Uncached(svc, col, Request(tenant, Composed(image, text), p)) ==
            match svc.embedder.text(text)
            case Err(e) => Err(EmbeddingFailed(e))
            case Ok(m) =>
              match svc.embedder.image(image)
              case Err(e) => Err(EmbeddingFailed(e))
              case Ok(v) => Wrapped(Pipeline(svc.arith, col, v, p, svc.hasReranker, Some(m)))
  {
  }

  // ---- Flags and hits ----

  /** The `cached` flag says whether the key was in the cache, the `reranked` flag
      whether a reranker was there and asked for. */
  lemma FlagsExactly(svc: Service, c: Caches, version: nat, col: Collection, req: Request)
    requires ValidParams(req.params)
    ensures var (c', r) := Serve(svc, c, version, col, req);
            r.Ok? ==>
              && (r.value.cached <==> KeyFor(svc, version, req) in c.results)
              && (r.value.reranked <==> svc.hasReranker && (match req.query case ByImage(_, b) => b case ByText(_, b) => b case Composed(_, _) => true))
              && KeyFor(svc, version, req) in c'.results && c'.results[KeyFor(svc, version, req)] == r.value.results
  {
  }

  /** Asking again before the version moves or entries expire is a hit: the same
      results, nothing embedded, searched or stored. */
  lemma AskedAgain(svc: Service, c: Caches, version: nat, col: Collection, later: Collection, req: Request)
    requires ValidParams(req.params) && Serve(svc, c, version, col, req).1.Ok?
    ensures var (c', r) := Serve(svc, c, version, col, req);
            Serve(svc, c', version, later, req) == (c', Ok(r.value.(cached := true)))
  {
  }

  /** A served request leaves every vector it needed in the embedding cache. */
  lemma EmbeddingsAreKept(svc: Service, c: Caches, s: Source)
    ensures var (c', r) := CachedEmbed(svc, c, s);
            && (r.Ok? ==> EmbeddingKey(svc.hashing, s) in c'.embeddings && c'.embeddings[EmbeddingKey(svc.hashing, s)] == r.value)
            && (EmbeddingKey(svc.hashing, s) in c.embeddings ==> c' == c && r == Ok(c.embeddings[EmbeddingKey(svc.hashing, s)]))
            && (r.Err? ==> c' == c)
            && c'.results == c.results
  {
  }

  // ---- After a bump ----

  /** No cached page of the tenant carries a version above its counter. */
  ghost predicate NoKeyAhead(results: map<ResultKey, seq<RankedResult>>, versions: Versions, t: TenantId) {
    forall key :: key in results && key.tenant == t ==> key.version <= VersionOf(versions, t)
  }

  ghost predicate NoneAhead(results: map<ResultKey, seq<RankedResult>>, versions: Versions) {
    forall t :: NoKeyAhead(results, versions, t)
  }

  /** Serving under the current version puts no page ahead of its counter. */
  lemma ServeKeepsBehind(svc: Service, c: Caches, versions: Versions, col: Collection, req: Request)
    requires ValidParams(req.params) && NoneAhead(c.results, versions)
    ensures NoneAhead(Serve(svc, c, VersionOf(versions, req.tenant), col, req).0.results, versions)
  {
    var c' := Serve(svc, c, VersionOf(versions, req.tenant), col, req).0;
    var key := KeyFor(svc, VersionOf(versions, req.tenant), req);
    forall t ensures NoKeyAhead(c'.results, versions, t) {
      assert NoKeyAhead(c.results, versions, t);
      forall k | k in c'.results && k.tenant == t ensures k.version <= VersionOf(versions, t) {
        assert k == key || k in c.results;
      }
    }
  }

  /** A bump moves the tenant's counter past every cached page. */
  lemma BumpLeavesNoPage(svc: Service, results: map<ResultKey, seq<RankedResult>>, versions: Versions, req: Request)
    requires NoneAhead(results, versions)
    ensures NoneAhead(results, Bumped(versions, req.tenant))
    ensures KeyFor(svc, VersionOf(Bumped(versions, req.tenant), req.tenant), req) !in results
  {
    BumpMeaning(versions, req.tenant);
    forall t ensures NoKeyAhead(results, Bumped(versions, req.tenant), t) {
      assert NoKeyAhead(results, versions, t);
    }
    assert NoKeyAhead(results, versions, req.tenant);
  }

  /** With the page not in the cache, the answer is that of the collection. */
  lemma MissIsFresh(svc: Service, inputs: set<Bytes>, c: Caches, version: nat, col: Collection, req: Request)
    requires Collisionless(svc.hashing, inputs) && Admissible(svc.hashing, inputs, req)
    requires EmbeddingsSound(svc, inputs, c) && KeyFor(svc, version, req) !in c.results
    ensures var r := Serve(svc, c, version, col, req).1;
            SeenOutput(r) == Seen(svc, req, Uncached(svc, col, req)) && (r.Ok? ==> !r.value.cached)
  {
    var c1 := c;
    if req.query.Composed? {
      CachedEmbedTransparent(svc, inputs, c, TextSource(req.query.modifier));
      c1 := CachedEmbed(svc, c, TextSource(req.query.modifier)).0;
    }
    CachedEmbedTransparent(svc, inputs, c1, SourceOf(req.query));
  }

  /** The worker's bump and the service's next search, on one Redis: whatever was
      cached before, the answer is that of the tenant's collection as it is now,
      computed afresh. */
  method BumpThenSearch(bumper: RedisIndexVersionBumper, search: SearchUseCases, req: Request, ghost inputs: set<Bytes>)
    returns (r: Result<Output, SearchError>)
    requires bumper.client == search.cache.client && ValidParams(req.params)
    requires Collisionless(search.svc.hashing, inputs) && Admissible(search.svc.hashing, inputs, req)
    requires EmbeddingsSound(search.svc, inputs, search.cache.Snapshot()) && NoneAhead(search.cache.results, search.cache.client.versions)
    modifies bumper.client, search.cache`results, search.cache`embeddings
    ensures SeenOutput(r) == Seen(search.svc, req, Uncached(search.svc, CollectionOf(search.index.collections, req.tenant), req))
    ensures r.Ok? ==> !r.value.cached
    ensures NoneAhead(search.cache.results, search.cache.client.versions)
    ensures VersionOf(search.cache.client.versions, req.tenant) == VersionOf(old(search.cache.client.versions), req.tenant) + 1
  {
    ghost var before := search.cache.Snapshot();
    ghost var col := CollectionOf(search.index.collections, req.tenant);
    BumpLeavesNoPage(search.svc, search.cache.results, search.cache.client.versions, req);
    BumpMeaning(search.cache.client.versions, req.tenant);
    bumper.Bump(req.tenant);
    ghost var versions := search.cache.client.versions;
    MissIsFresh(search.svc, inputs, before, VersionOf(versions, req.tenant), col, req);
    ServeKeepsBehind(search.svc, before, versions, col, req);
    r := search.Search(req);
  }

  /** An item the worker has just indexed, and the next search of its tenant: the
      answer is that of a collection that holds the item's own vector and payload. */
  method IndexThenSearch(processor: IngestionProcessor, id: ItemId, item: Row, e: Embedding, a: Attempt,
                         search: SearchUseCases, req: Request, ghost inputs: set<Bytes>)
    returns (exit: Exit, r: Result<Output, SearchError>)
    requires processor.bumper.client == search.cache.client && processor.vectors == search.index
    requires id in processor.items.rows && a.vectors.VectorsUp? && !a.db.AtMark? && !a.bumpFails
    requires req.tenant == item.tenant && ValidParams(req.params)
    requires Collisionless(search.svc.hashing, inputs) && Admissible(search.svc.hashing, inputs, req)
    requires EmbeddingsSound(search.svc, inputs, search.cache.Snapshot()) && NoneAhead(search.cache.results, search.cache.client.versions)
    modifies processor.items`rows, processor.items`refs, processor.vectors, processor.bumper.client
    modifies search.cache`results, search.cache`embeddings
    ensures exit == Returned(IndexedNow)
    ensures VectorRecord(id, e.vector, SearchPayload(id, item)) in CollectionOf(search.index.collections, req.tenant)
    ensures SeenOutput(r) == Seen(search.svc, req, Uncached(search.svc, CollectionOf(search.index.collections, req.tenant), req))
    ensures r.Ok? ==> !r.value.cached
  {
    ghost var before := search.cache.Snapshot();
    ghost var rec := RecordFor(id, item, e);
    ghost var priorCol := CollectionOf(processor.vectors.collections, item.tenant);
    BumpLeavesNoPage(search.svc, search.cache.results, search.cache.client.versions, req);
    exit := processor.Index(id, item, e, a);
    ghost var versions := search.cache.client.versions;
    ghost var col := CollectionOf(search.index.collections, req.tenant);
    assert [rec][..0] == [];
    assert PutAll(priorCol, [rec]) == Put(priorCol, rec);
    assert col == Put(priorCol, rec);
    PutMeaning(priorCol, rec);
    MissIsFresh(search.svc, inputs, before, VersionOf(versions, req.tenant), col, req);
    r := search.Search(req);
  }
}
