/** The interleaved model of cache freshness and the services it is about: four
    uninterrupted search steps are one call of the search service, and an indexing
    attempt is an upsert and a bump. */
module FreshnessRefinement {
  import opened Common
  import opened VectorStore
  import opened IndexVersions
  import opened Reranking
  import opened SearchPipeline
  import opened SearchService
  import opened ServedAnswers
  import opened Dedup
  import opened Ingestion
  import opened IngestionMeaning
  import opened CacheFreshness

  function KeyNow(svc: Service, s: State, r: nat): ResultKey
    requires Reads(s, r)
  {
    KeyFor(svc, VersionOf(s.versions, s.flights[r].req.tenant), s.flights[r].req)
  }

  function AfterLookUp(svc: Service, s: State, r: nat): State {
    Next(svc, Next(svc, s, ReadVersion(r)), LookUp(r))
  }

  function AfterStore(svc: Service, s: State, r: nat): State {
    Next(svc, Next(svc, AfterLookUp(svc, s, r), Compute(r)), StorePage(r))
  }

  lemma TwoSteps(svc: Service, s: State, r: nat)
    requires Reads(s, r)
    ensures var t, key := AfterLookUp(svc, s, r), KeyNow(svc, s, r);
            && t.log == s.log && t.results == s.results && r in t.flights && t.flights[r].req == s.flights[r].req
            && (key in s.results ==> t.flights[r].phase.Answered? && t.flights[r].phase.page == s.results[key] && t.flights[r].phase.cached)
            && (key !in s.results ==> t.flights[r].phase.Missed? && t.flights[r].phase.key == key)
  {
  }

  lemma LastTwoSteps(svc: Service, t: State, r: nat)
    requires r in t.flights && ValidParams(t.flights[r].req.params) && t.flights[r].phase.Missed?
    ensures var u, f := Next(svc, Next(svc, t, Compute(r)), StorePage(r)), t.flights[r];
            var answer := Uncached(svc, CollectionOf(Replay(t.log), f.req.tenant), f.req);
            && r in u.flights
            && (answer.Ok? ==> u.flights[r].phase.Answered? && u.flights[r].phase.page == answer.value && !u.flights[r].phase.cached
                               && u.results == t.results[f.phase.key := answer.value])
            && (answer.Err? ==> u.flights[r].phase.Failed? && u.results == t.results)
  {
  }

  lemma AnsweredStays(svc: Service, t: State, r: nat)
    requires r in t.flights && ValidParams(t.flights[r].req.params) && t.flights[r].phase.Answered?
    ensures Next(svc, Next(svc, t, Compute(r)), StorePage(r)) == t
  {
    assert t.flights[r := t.flights[r]] == t.flights;
  }

  /** One call of the service, as seen from its result cache. */
  ghost predicate SameAsServe(svc: Service, s: State, u: State, r: nat, embeddings: map<string, Vector>)
    requires Reads(s, r)
  {
    var req := s.flights[r].req;
    var (c, out) := Serve(svc, Caches(s.results, embeddings), VersionOf(s.versions, req.tenant), CollectionOf(Replay(s.log), req.tenant), req);
    && r in u.flights && u.results == c.results
    && (match out
        case Ok(o) => u.flights[r].phase.Answered? && u.flights[r].phase.page == o.results && u.flights[r].phase.cached == o.cached
        case Err(_) => u.flights[r].phase.Failed?)
  }

  lemma ServeStores(svc: Service, inputs: set<Bytes>, c: Caches, version: nat, col: Collection, req: Request)
    requires Collisionless(svc.hashing, inputs) && Admissible(svc.hashing, inputs, req)
    requires EmbeddingsSound(svc, inputs, c) && KeyFor(svc, version, req) !in c.results
    ensures var (c', r) := Serve(svc, c, version, col, req);
            match Uncached(svc, col, req)
            case Ok(page) => r == Ok(Output(page, false, WillRerank(svc, req.query))) && c'.results == c.results[KeyFor(svc, version, req) := page]
            case Err(_) => r.Err? && c'.results == c.results
  {
    var c1 := c;
    if req.query.Composed? {
      CachedEmbedTransparent(svc, inputs, c, TextSource(req.query.modifier));
      c1 := CachedEmbed(svc, c, TextSource(req.query.modifier)).0;
    }
    CachedEmbedTransparent(svc, inputs, c1, SourceOf(req.query));
  }

  lemma HitServes(svc: Service, inputs: set<Bytes>, c: Caches, version: nat, col: Collection, req: Request)
    requires Collisionless(svc.hashing, inputs) && Admissible(svc.hashing, inputs, req)
    requires EmbeddingsSound(svc, inputs, c) && KeyFor(svc, version, req) in c.results
    requires req.query.Composed? ==> Embed(svc, TextSource(req.query.modifier)).Ok?
    ensures var (c', r) := Serve(svc, c, version, col, req);
            c'.results == c.results && r == Ok(Output(c.results[KeyFor(svc, version, req)], true, WillRerank(svc, req.query)))
  {
    if req.query.Composed? {
      CachedEmbedTransparent(svc, inputs, c, TextSource(req.query.modifier));
    }
  }

  /** Read, look up, compute and store without interruption is one call of the
      service over the same results, versions and vectors, whatever sound
      embeddings it has cached. (A composed query whose modifier cannot be embedded
      fails in the service before it looks anything up.) */
  lemma StepsAreOneSearch(svc: Service, inputs: set<Bytes>, s: State, r: nat, embeddings: map<string, Vector>)
    requires Reads(s, r) && Collisionless(svc.hashing, inputs) && Admissible(svc.hashing, inputs, s.flights[r].req)
    requires EmbeddingsSound(svc, inputs, Caches(s.results, embeddings))
    requires s.flights[r].req.query.Composed? ==> Embed(svc, TextSource(s.flights[r].req.query.modifier)).Ok?
    ensures SameAsServe(svc, s, AfterStore(svc, s, r), r, embeddings)
  {
    var req := s.flights[r].req;
    var c, version, col := Caches(s.results, embeddings), VersionOf(s.versions, req.tenant), CollectionOf(Replay(s.log), req.tenant);
    var t := AfterLookUp(svc, s, r);
    TwoSteps(svc, s, r);
    if KeyNow(svc, s, r) in s.results {
      AnsweredStays(svc, t, r);
      HitServes(svc, inputs, c, version, col, req);
    } else {
      LastTwoSteps(svc, t, r);
      ServeStores(svc, inputs, c, version, col, req);
    }
  }

  /** An attempt that indexes is one upsert in the log and one bump of its counter. */
  lemma IndexingIsAWrite(d: Data, id: ItemId, a: Attempt, th: int, listing: seq<Entry>, log: seq<Write>)
    requires d.store == Replay(log) && RunOnce(d, id, a, th, listing).1 == Returned(IndexedNow) && !a.bumpFails
    ensures var d' := RunOnce(d, id, a, th, listing).0;
            && id in d.rows && a.embed.Ok?
            && d'.store == Replay(log + [Write(d.rows[id].tenant, VectorRecord(id, a.embed.value.vector, SearchPayload(id, d.rows[id])))])
            && d'.versions == Bumped(d.versions, d.rows[id].tenant)
  {
    RowsWritten(d, id, a, th, listing);
    var w := Write(d.rows[id].tenant, VectorRecord(id, a.embed.value.vector, SearchPayload(id, d.rows[id])));
    assert (log + [w])[..|log|] == log;
  }
}
