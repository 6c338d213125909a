/** The search use cases with their two caches, and why the caches are invisible:
    every answer equals the one the uncached pipeline gives. */
module SearchService {
  import opened Common
  import opened VectorStore
  import opened IndexVersions
  import opened Reranking
  import opened SearchPipeline

  // ---- Configuration: deterministic collaborators ----

  /** SHA-256 in hexadecimal and UTF-8. */
  datatype Hashing = Hashing(digest: Bytes -> string, utf8: string -> Bytes)

  const DIGEST_LENGTH := 64

  /** What the hashes must be good for: no two different byte strings among the
      given ones collide. */
  ghost predicate Collisionless(h: Hashing, inputs: set<Bytes>) {
    && (forall b :: |h.digest(b)| == DIGEST_LENGTH)
    && (forall b, c :: b in inputs && c in inputs && h.digest(b) == h.digest(c) ==> b == c)
    && (forall s, t :: h.utf8(s) == h.utf8(t) ==> s == t)
  }

  datatype EmbedError = Unreachable | InvalidQuery
  datatype SearchError = EmbeddingFailed(e: EmbedError) | RerankFailed(r: RerankError)

  datatype Embedder = Embedder(image: Bytes -> Result<Vector, EmbedError>, text: string -> Result<Vector, EmbedError>)

  datatype Service = Service(arith: Arithmetic, hashing: Hashing, embedder: Embedder, hasReranker: bool)

  // ---- Requests ----

  datatype Source = ImageSource(image: Bytes) | TextSource(text: string)

  datatype Query = ByImage(image: Bytes, rerank: bool) | ByText(text: string, rerank: bool) | Composed(image: Bytes, modifier: string)

  datatype Request = Request(tenant: TenantId, query: Query, params: Params)

  datatype Output = Output(results: seq<RankedResult>, cached: bool, reranked: bool)

  function SourceOf(q: Query): Source {
    match q
    case ByImage(b, _) => ImageSource(b)
    case ByText(t, _) => TextSource(t)
    case Composed(b, _) => ImageSource(b)
  }

  /** The bytes a source is hashed as. */
  function HashedSource(h: Hashing, s: Source): Bytes {
    match s
    case ImageSource(b) => b
    case TextSource(t) => h.utf8(t)
  }

  /** Everything a query has hashed. */
  function HashedBy(h: Hashing, q: Query): set<Bytes> {
    {HashedSource(h, SourceOf(q))} + (if q.Composed? then {h.utf8(q.modifier)} else {})
  }

  predicate Admissible(h: Hashing, inputs: set<Bytes>, req: Request) {
    ValidParams(req.params) && HashedBy(h, req.query) <= inputs
  }

  function WillRerank(svc: Service, q: Query): bool {
    svc.hasReranker && (q.Composed? || q.rerank)
  }

  function Seed(h: Hashing, q: Query): string {
    match q
    case ByImage(b, _) => "img:" + h.digest(b)
    case ByText(t, _) => "txt:" + h.digest(h.utf8(t))
    case Composed(b, m) => "cmp:" + h.digest(b) + ":" + h.digest(h.utf8(m))
  }

  function EmbeddingKey(h: Hashing, s: Source): string {
    match s
    case ImageSource(b) => "emb:img:" + h.digest(b)
    case TextSource(t) => "emb:txt:" + h.digest(h.utf8(t))
  }

  /** The JSON object whose digest keys a cached result. */
  datatype ResultKey = ResultKey(tenant: TenantId, version: nat, seed: string, topK: int, offset: int,
                                 minScore: real, filters: map<string, Json>, reranked: bool)

  function KeyFor(svc: Service, version: nat, req: Request): ResultKey {
    ResultKey(req.tenant, version, Seed(svc.hashing, req.query), req.params.topK, req.params.offset,
              req.params.minScore, req.params.filters, WillRerank(svc, req.query))
  }

  // ---- The uncached service ----

  function Embed(svc: Service, s: Source): Result<Vector, SearchError> {
    match (match s case ImageSource(b) => svc.embedder.image(b) case TextSource(t) => svc.embedder.text(t))
    case Ok(v) => Ok(v)
    case Err(e) => Err(EmbeddingFailed(e))
  }

  /** The modifier vector of a composed query; plain queries have none. */
  function ModifierOf(svc: Service, q: Query): Result<Option<Vector>, SearchError> {
    if q.Composed? then
      match Embed(svc, TextSource(q.modifier))
      case Ok(v) => Ok(Some(v))
      case Err(e) => Err(e)
    else Ok(None)
  }

  function Ranked(svc: Service, col: Collection, query: Vector, p: Params, willRerank: bool, modifier: Option<Vector>)
    : Result<seq<RankedResult>, SearchError>
    requires ValidParams(p)
  {
    match Pipeline(svc.arith, col, query, p, willRerank, modifier)
    case Ok(r) => Ok(r)
    case Err(e) => Err(RerankFailed(e))
  }

  /** What the service answers without any cache, from one tenant's collection. */
  function Uncached(svc: Service, col: Collection, req: Request): Result<seq<RankedResult>, SearchError>
    requires ValidParams(req.params)
  {
    match ModifierOf(svc, req.query)
    case Err(e) => Err(e)
    case Ok(modifier) =>
      match Embed(svc, SourceOf(req.query))
      case Err(e) => Err(e)
      case Ok(v) => Ranked(svc, col, v, req.params, WillRerank(svc, req.query), modifier)
  }

  // ---- The cached service, as a function of the caches ----

  datatype Caches = Caches(results: map<ResultKey, seq<RankedResult>>, embeddings: map<string, Vector>)

  function CachedEmbed(svc: Service, c: Caches, s: Source): (Caches, Result<Vector, SearchError>) {
    var key := EmbeddingKey(svc.hashing, s);
    if key in c.embeddings then (c, Ok(c.embeddings[key]))
    else match Embed(svc, s)
      case Err(e) => (c, Err(e))
      case Ok(v) => (c.(embeddings := c.embeddings[key := v]), Ok(v))
  }

  function Run(svc: Service, c: Caches, key: ResultKey, col: Collection, s: Source, p: Params, modifier: Option<Vector>)
    : (Caches, Result<Output, SearchError>)
    requires ValidParams(p)
  {
    if key in c.results then (c, Ok(Output(c.results[key], true, key.reranked)))
    else
      var (c1, v) := CachedEmbed(svc, c, s);
      match v
      case Err(e) => (c1, Err(e))
      case Ok(query) =>
        match Ranked(svc, col, query, p, key.reranked, modifier)
        case Err(e) => (c1, Err(e))
        case Ok(page) => (c1.(results := c1.results[key := page]), Ok(Output(page, false, key.reranked)))
  }

  function Serve(svc: Service, c: Caches, version: nat, col: Collection, req: Request): (Caches, Result<Output, SearchError>)
    requires ValidParams(req.params)
  {
    var key := KeyFor(svc, version, req);
    if req.query.Composed? then
      var (c1, m) := CachedEmbed(svc, c, TextSource(req.query.modifier));
      match m
      case Err(e) => (c1, Err(e))
      case Ok(v) => Run(svc, c1, key, col, SourceOf(req.query), req.params, Some(v))
    else Run(svc, c, key, col, SourceOf(req.query), req.params, None)
  }

  // ---- The classes ----

  /** `RedisQueryCache` while Redis answers; expiry is a loss of entries at any
      moment. The version counters are the ones the worker bumps. */
  class RedisQueryCache {
    const client: RedisCounters
    var results: map<ResultKey, seq<RankedResult>>
    var embeddings: map<string, Vector>

    constructor (client: RedisCounters)
      ensures this.client == client && Snapshot() == Caches(map[], map[])
    {
      this.client, results, embeddings := client, map[], map[];
    }

    function Snapshot(): Caches
      reads this
    {
      Caches(results, embeddings)
    }

    /** The counter as Redis holds it. */
    function IndexVersion(tenant: TenantId): (v: nat)
      reads client
      ensures v == VersionOf(client.versions, tenant)
    {
      if tenant in client.versions then client.versions[tenant] else 0
    }

    method SetResults(key: ResultKey, page: seq<RankedResult>)
      modifies this`results
      ensures results == old(results)[key := page]
    {
      results := results[key := page];
    }

    method SetEmbedding(key: string, vector: Vector)
      modifies this`embeddings
      ensures embeddings == old(embeddings)[key := vector]
    {
      embeddings := embeddings[key := vector];
    }

    method Expire(resultKeys: set<ResultKey>, embeddingKeys: set<string>)
      modifies this`results, this`embeddings
      ensures results == old(results) - resultKeys && embeddings == old(embeddings) - embeddingKeys
    {
      results, embeddings := results - resultKeys, embeddings - embeddingKeys;
    }
  }

  class SearchUseCases {
    const svc: Service
    const cache: RedisQueryCache
    const index: InMemoryVectorStore

    constructor (svc: Service, cache: RedisQueryCache, index: InMemoryVectorStore)
      ensures this.svc == svc && this.cache == cache && this.index == index
    {
      this.svc, this.cache, this.index := svc, cache, index;
    }

    method CachedSourceEmbed(s: Source) returns (r: Result<Vector, SearchError>)
      modifies cache`embeddings
      ensures (cache.Snapshot(), r) == CachedEmbed(svc, old(cache.Snapshot()), s)
    {
      var key := EmbeddingKey(svc.hashing, s);
      if key in cache.embeddings {
        return Ok(cache.embeddings[key]);
      }
      r := Embed(svc, s);
      if r.Ok? {
        cache.SetEmbedding(key, r.value);
      }
    }

    method ApplyReranker(query: Vector, modifier: Option<Vector>, hits: seq<Hit>) returns (r: Result<seq<Hit>, RerankError>)
      ensures r == ApplyRerank(svc.arith.sqrt, query, modifier, hits)
    {
      var order := RerankCall(svc.arith.sqrt, query, Candidates(hits), modifier, |hits|);
      if order.Err? {
        return Err(order.error);
      }
      var reordered: seq<Hit> := [];
      for i := 0 to |order.value|
        invariant reordered == Reorder(hits, order.value[..i])
      {
        assert order.value[..i + 1][..i] == order.value[..i];
        var hit := ById(hits, order.value[i].0);
        if hit.Some? {
          reordered := reordered + [Hit(hit.value.id, order.value[i].1, hit.value.payload, None)];
        }
      }
      assert order.value[..|order.value|] == order.value;
      r := Ok(reordered);
    }

    method RunQuery(key: ResultKey, tenant: TenantId, s: Source, p: Params, modifier: Option<Vector>)
      returns (r: Result<Output, SearchError>)
      requires ValidParams(p)
      modifies cache`results, cache`embeddings
      ensures (cache.Snapshot(), r) == Run(svc, old(cache.Snapshot()), key, CollectionOf(index.collections, tenant), s, p, modifier)
    {
      if key in cache.results {
        return Ok(Output(cache.results[key], true, key.reranked));
      }
      var query := CachedSourceEmbed(s);
      if query.Err? {
        return Err(query.error);
      }
      var page := FreshPage(tenant, query.value, p, key.reranked, modifier);
      if page.Err? {
        return Err(page.error);
      }
      cache.SetResults(key, page.value);
      r := Ok(Output(page.value, false, key.reranked));
    }

    /** The middle of `_run`: fetch, rerank, filter by score, slice. */
    method FreshPage(tenant: TenantId, query: Vector, p: Params, willRerank: bool, modifier: Option<Vector>)
      returns (r: Result<seq<RankedResult>, SearchError>)
      requires ValidParams(p)
      ensures r == Ranked(svc, CollectionOf(index.collections, tenant), query, p, willRerank, modifier)
    {
      var fetch := p.topK + p.offset;
      if willRerank {
        fetch := fetch * RERANK_MULTIPLIER;
      }
      var hits := index.Search(svc.arith.sqrt, tenant, query, fetch, p.filters, willRerank);
      if willRerank && hits != [] {
        var reordered := ApplyReranker(query, modifier, hits);
        if reordered.Err? {
          return Err(RerankFailed(reordered.error));
        }
        hits := reordered.value;
      }
      var ranked := Kept(svc.arith.round6, hits, p.minScore);
      r := Ok(Slice(ranked, p.offset, p.offset + p.topK));
    }

    method Search(req: Request) returns (r: Result<Output, SearchError>)
      requires ValidParams(req.params)
      modifies cache`results, cache`embeddings
      ensures (cache.Snapshot(), r)
              == Serve(svc, old(cache.Snapshot()), VersionOf(cache.client.versions, req.tenant), CollectionOf(index.collections, req.tenant), req)
    {
      var modifier: Option<Vector> := None;
      if req.query.Composed? {
        var m := CachedSourceEmbed(TextSource(req.query.modifier));
        if m.Err? {
          return Err(m.error);
        }
        modifier := Some(m.value);
      }
      var key := KeyFor(svc, cache.IndexVersion(req.tenant), req);
      r := RunQuery(key, req.tenant, SourceOf(req.query), req.params, modifier);
    }
  }

  // ---- The key determines the answer ----

  lemma DropPrefix(p: string, s: string, t: string)
    requires p + s == p + t
    ensures s == t
  {
    assert (p + s)[|p|..] == s && (p + t)[|p|..] == t;
  }

  lemma SeedShape(h: Hashing, q: Query)
    ensures var s := Seed(h, q);
            |s| > 0 && s[0] == (match q case ByImage(_, _) => 'i' case ByText(_, _) => 't' case Composed(_, _) => 'c')
  {
  }

  /** Seeds are readable: equal seeds come from the same kind of query on the
      same bytes. */
  lemma SeedInjective(h: Hashing, inputs: set<Bytes>, q: Query, r: Query)
    requires Collisionless(h, inputs) && HashedBy(h, q) <= inputs && HashedBy(h, r) <= inputs
    requires Seed(h, q) == Seed(h, r)
    ensures SourceOf(q) == SourceOf(r)
    ensures q.Composed? <==> r.Composed?
    ensures q.Composed? ==> q == r
  {
    SeedShape(h, q);
    SeedShape(h, r);
    match q {
      case ByImage(b, _) => DropPrefix("img:", h.digest(b), h.digest(r.image));
      case ByText(t, _) => DropPrefix("txt:", h.digest(h.utf8(t)), h.digest(h.utf8(r.text)));
      case Composed(b, m) =>
        var tail, tail' := h.digest(b) + ":" + h.digest(h.utf8(m)), h.digest(r.image) + ":" + h.digest(h.utf8(r.modifier));
        assert Seed(h, q) == "cmp:" + tail && Seed(h, r) == "cmp:" + tail';
        DropPrefix("cmp:", tail, tail');
        assert tail[..DIGEST_LENGTH] == h.digest(b) && tail'[..DIGEST_LENGTH] == h.digest(r.image);
        assert tail[DIGEST_LENGTH + 1..] == h.digest(h.utf8(m)) && tail'[DIGEST_LENGTH + 1..] == h.digest(h.utf8(r.modifier));
    }
  }

  /** Two requests with one key have one answer, whatever is indexed. */
  lemma KeyDetermines(svc: Service, inputs: set<Bytes>, version: nat, a: Request, b: Request, col: Collection)
    requires Collisionless(svc.hashing, inputs) && Admissible(svc.hashing, inputs, a) && Admissible(svc.hashing, inputs, b)
    requires KeyFor(svc, version, a) == KeyFor(svc, version, b)
    ensures a.tenant == b.tenant && Uncached(svc, col, a) == Uncached(svc, col, b)
  {
    SeedInjective(svc.hashing, inputs, a.query, b.query);
  }

  lemma EmbeddingKeyInjective(h: Hashing, inputs: set<Bytes>, s: Source, t: Source)
    requires Collisionless(h, inputs) && HashedSource(h, s) in inputs && HashedSource(h, t) in inputs
    requires EmbeddingKey(h, s) == EmbeddingKey(h, t)
    ensures s == t
  {
    assert EmbeddingKey(h, s)[4] == (if s.ImageSource? then 'i' else 't');
    assert EmbeddingKey(h, t)[4] == (if t.ImageSource? then 'i' else 't');
    match s {
      case ImageSource(b) => DropPrefix("emb:img:", h.digest(b), h.digest(t.image));
      case TextSource(x) => DropPrefix("emb:txt:", h.digest(h.utf8(x)), h.digest(h.utf8(t.text)));
    }
  }

  // ---- Cache transparency ----

  ghost predicate EmbeddingsSound(svc: Service, inputs: set<Bytes>, c: Caches) {
    forall s :: HashedSource(svc.hashing, s) in inputs && EmbeddingKey(svc.hashing, s) in c.embeddings ==>
      Embed(svc, s) == Ok(c.embeddings[EmbeddingKey(svc.hashing, s)])
  }

  /** Every reachable cached page is what the uncached service would answer now. */
  ghost predicate ResultsSound(svc: Service, inputs: set<Bytes>, c: Caches, versions: Versions, store: Store) {
    forall req: Request :: Admissible(svc.hashing, inputs, req) ==>
      var key := KeyFor(svc, VersionOf(versions, req.tenant), req);
      key in c.results ==> Uncached(svc, CollectionOf(store, req.tenant), req) == Ok(c.results[key])
  }

  lemma CachedEmbedTransparent(svc: Service, inputs: set<Bytes>, c: Caches, s: Source)
    requires Collisionless(svc.hashing, inputs) && EmbeddingsSound(svc, inputs, c) && HashedSource(svc.hashing, s) in inputs
    ensures CachedEmbed(svc, c, s).1 == Embed(svc, s)
    ensures EmbeddingsSound(svc, inputs, CachedEmbed(svc, c, s).0)
    ensures CachedEmbed(svc, c, s).0.results == c.results
  {
    var c1 := CachedEmbed(svc, c, s).0;
    forall t | HashedSource(svc.hashing, t) in inputs && EmbeddingKey(svc.hashing, t) in c1.embeddings
      ensures Embed(svc, t) == Ok(c1.embeddings[EmbeddingKey(svc.hashing, t)])
    {
      if EmbeddingKey(svc.hashing, t) == EmbeddingKey(svc.hashing, s) {
        EmbeddingKeyInjective(svc.hashing, inputs, t, s);
      }
    }
  }

  /** The answer a caller sees, without the `cached` flag. */
  function Seen(svc: Service, req: Request, r: Result<seq<RankedResult>, SearchError>): Result<(seq<RankedResult>, bool), SearchError> {
    match r
    case Ok(page) => Ok((page, WillRerank(svc, req.query)))
    case Err(e) => Err(e)
  }

  function SeenOutput(r: Result<Output, SearchError>): Result<(seq<RankedResult>, bool), SearchError> {
    match r
    case Ok(out) => Ok((out.results, out.reranked))
    case Err(e) => Err(e)
  }

  /** A request through sound caches gets the uncached answer. It leaves the
      embeddings sound and adds at most the page for its own key. */
  lemma ServeAnswers(svc: Service, inputs: set<Bytes>, c: Caches, versions: Versions, store: Store, req: Request)
    requires Collisionless(svc.hashing, inputs) && Admissible(svc.hashing, inputs, req)
    requires EmbeddingsSound(svc, inputs, c) && ResultsSound(svc, inputs, c, versions, store)
    ensures var version, col := VersionOf(versions, req.tenant), CollectionOf(store, req.tenant);
            var (c', r) := Serve(svc, c, version, col, req);
            && SeenOutput(r) == Seen(svc, req, Uncached(svc, col, req))
            && EmbeddingsSound(svc, inputs, c')
            && (c'.results == c.results
                || (Uncached(svc, col, req).Ok? && c'.results == c.results[KeyFor(svc, version, req) := Uncached(svc, col, req).value]))
  {
    var c1 := c;
    if req.query.Composed? {
      CachedEmbedTransparent(svc, inputs, c, TextSource(req.query.modifier));
      c1 := CachedEmbed(svc, c, TextSource(req.query.modifier)).0;
    }
    CachedEmbedTransparent(svc, inputs, c1, SourceOf(req.query));
  }

  lemma NewPageIsSound(svc: Service, inputs: set<Bytes>, c: Caches, versions: Versions, store: Store, req: Request, c': Caches)
    requires Collisionless(svc.hashing, inputs) && Admissible(svc.hashing, inputs, req) && ResultsSound(svc, inputs, c, versions, store)
    requires Uncached(svc, CollectionOf(store, req.tenant), req).Ok?
    requires c'.results == c.results[KeyFor(svc, VersionOf(versions, req.tenant), req) := Uncached(svc, CollectionOf(store, req.tenant), req).value]
    ensures ResultsSound(svc, inputs, c', versions, store)
  {
    forall other: Request | Admissible(svc.hashing, inputs, other) && KeyFor(svc, VersionOf(versions, other.tenant), other) in c'.results
      ensures Uncached(svc, CollectionOf(store, other.tenant), other) == Ok(c'.results[KeyFor(svc, VersionOf(versions, other.tenant), other)])
    {
      if KeyFor(svc, VersionOf(versions, other.tenant), other) == KeyFor(svc, VersionOf(versions, req.tenant), req) {
        KeyDetermines(svc, inputs, VersionOf(versions, req.tenant), other, req, CollectionOf(store, req.tenant));
      }
    }
  }

  /** One request through sound caches: the uncached answer, and the caches stay sound. */
  lemma ServeTransparent(svc: Service, inputs: set<Bytes>, c: Caches, versions: Versions, store: Store, req: Request)
    requires Collisionless(svc.hashing, inputs) && Admissible(svc.hashing, inputs, req)
    requires EmbeddingsSound(svc, inputs, c) && ResultsSound(svc, inputs, c, versions, store)
    ensures var (c', r) := Serve(svc, c, VersionOf(versions, req.tenant), CollectionOf(store, req.tenant), req);
            && SeenOutput(r) == Seen(svc, req, Uncached(svc, CollectionOf(store, req.tenant), req))
            && EmbeddingsSound(svc, inputs, c') && ResultsSound(svc, inputs, c', versions, store)
  {
    ServeAnswers(svc, inputs, c, versions, store, req);
    var c' := Serve(svc, c, VersionOf(versions, req.tenant), CollectionOf(store, req.tenant), req).0;
    if c'.results != c.results {
      NewPageIsSound(svc, inputs, c, versions, store, req, c');
    }
  }

  /** A visit: some entries expire, then a request arrives. */
  datatype Visit = Visit(expiredResults: set<ResultKey>, expiredEmbeddings: set<string>, req: Request)

  function Expired(c: Caches, v: Visit): Caches {
    Caches(c.results - v.expiredResults, c.embeddings - v.expiredEmbeddings)
  }

  function Session(svc: Service, c: Caches, versions: Versions, store: Store, visits: seq<Visit>)
    : seq<Result<(seq<RankedResult>, bool), SearchError>>
    requires forall v :: v in visits ==> ValidParams(v.req.params)
    decreases |visits|
  {
    if visits == [] then []
    else
      var req := visits[0].req;
      var (c', r) := Serve(svc, Expired(c, visits[0]), VersionOf(versions, req.tenant), CollectionOf(store, req.tenant), req);
      [SeenOutput(r)] + Session(svc, c', versions, store, visits[1..])
  }

  /** Any sequence of requests between two index writes, with entries expiring as
      they please, as long as the inputs hashed do not collide: the caching service is indistinguishable from one without caches. */
  lemma {:induction false} CachesAreInvisible(svc: Service, inputs: set<Bytes>, c: Caches, versions: Versions, store: Store, visits: seq<Visit>)
    requires Collisionless(svc.hashing, inputs)
    requires forall v :: v in visits ==> Admissible(svc.hashing, inputs, v.req)
    requires EmbeddingsSound(svc, inputs, c) && ResultsSound(svc, inputs, c, versions, store)
    ensures |Session(svc, c, versions, store, visits)| == |visits|
    ensures forall i :: 0 <= i < |visits| ==>
              var req := visits[i].req;
              Session(svc, c, versions, store, visits)[i] == Seen(svc, req, Uncached(svc, CollectionOf(store, req.tenant), req))
    decreases |visits|
  {
    if visits != [] {
      var req := visits[0].req;
      ServeTransparent(svc, inputs, Expired(c, visits[0]), versions, store, req);
      var c' := Serve(svc, Expired(c, visits[0]), VersionOf(versions, req.tenant), CollectionOf(store, req.tenant), req).0;
      CachesAreInvisible(svc, inputs, c', versions, store, visits[1..]);
      var rest := Session(svc, c', versions, store, visits[1..]);
      var all := Session(svc, c, versions, store, visits);
      forall i | 0 <= i < |visits|
        ensures all[i] == Seen(svc, visits[i].req, Uncached(svc, CollectionOf(store, visits[i].req.tenant), visits[i].req))
      {
        if i > 0 {
          assert all[i] == rest[i - 1];
          assert visits[1..][i - 1] == visits[i];
        }
      }
    }
  }
}
