/** At-least-once delivery: handling a job again for an item that is already
    indexed or a duplicate changes nothing anyone can search. */
module PipelineRedelivery {
  import opened Common
  import opened PerceptualHash
  import opened Dedup
  import opened Ingestion
  import opened Runner
  import opened PipelineRuns
  import opened PipelineCover

  /** The bytes under an object key and the embedding they get, once and for all. */
  datatype Images = Images(contents: string -> Bytes, embedder: Bytes -> Embedding)

  function EmbeddingOf(images: Images, row: Row): Embedding { images.embedder(images.contents(row.objectKey)) }

  /** Whatever the downloads and embeddings of this attempt return is true. */
  predicate Faithful(images: Images, a: Attempt, row: Row) {
    && (a.download.Ok? ==> a.download.value == images.contents(row.objectKey))
    && (a.embed.Ok? ==> a.embed.value == EmbeddingOf(images, row))
  }

  predicate FaultFree(a: Attempt) {
    a.db.DbUp? && a.download.Ok? && a.embed.Ok? && a.vectors.VectorsUp? && !a.bumpFails
  }

  /** Duplicates carry the hash of their own image, which has a vector. */
  ghost predicate TrueHashes(images: Images, rows: Rows) {
    forall x :: IsDuplicate(rows, x) ==>
      rows[x].phash == Some(EmbeddingOf(images, rows[x]).phash) && EmbeddingOf(images, rows[x]).vector != []
  }

  ghost predicate FaithfulStep(images: Images, w: World, s: Step) {
    s.Work? && NextJob(w).Some? && NextJob(w).value.itemId in w.data.rows ==>
      Faithful(images, s.env.attempt, w.data.rows[NextJob(w).value.itemId])
  }

  ghost predicate FaithfulRun(images: Images, steps: seq<Step>, cfg: Settings) {
    steps == [] || (FaithfulRun(images, steps[..|steps| - 1], cfg) && FaithfulStep(images, Run(steps[..|steps| - 1], cfg), steps[|steps| - 1]))
  }

  lemma StepKeepsTrueHashes(images: Images, w: World, s: Step, cfg: Settings)
    requires TrueHashes(images, w.data.rows) && FaithfulStep(images, w, s)
    ensures TrueHashes(images, Apply(w, s, cfg).data.rows)
  {
    if s.Work? {
      TurnData(w, s.env, cfg, s.listing);
      if NextJob(w).Some? {
        AttemptCases(w.data, NextJob(w).value.itemId, s.env.attempt, cfg.threshold, s.listing);
      }
    }
  }

  lemma {:induction false} HashesStayTrue(images: Images, steps: seq<Step>, cfg: Settings)
    requires FaithfulRun(images, steps, cfg)
    ensures TrueHashes(images, Run(steps, cfg).data.rows)
  {
    if steps != [] {
      HashesStayTrue(images, steps[..|steps| - 1], cfg);
      StepKeepsTrueHashes(images, Run(steps[..|steps| - 1], cfg), steps[|steps| - 1], cfg);
    }
  }

  // ---- Redelivery ----

  /** Nothing left to do for this id: gone, indexed, or a duplicate. */
  predicate SettledItem(rows: Rows, id: ItemId) {
    id !in rows || rows[id].status.Indexed? || rows[id].status.Duplicate?
  }

  /** The same catalog up to which original a duplicate names. */
  ghost predicate SameCatalog(rows: Rows, rows': Rows) {
    && rows'.Keys == rows.Keys
    && forall id :: id in rows ==>
         rows'[id] == rows[id]
         || (rows[id].status.Duplicate? && rows'[id].duplicateOf.Some? && rows'[id] == rows[id].(duplicateOf := rows'[id].duplicateOf))
  }

  ghost predicate Unchanged(d: Data, d': Data) {
    d'.refs == d.refs && d'.store == d.store && d'.versions == d.versions && SameCatalog(d.rows, d'.rows)
  }

  ghost predicate Steady(images: Images, rows: Rows, th: int) {
    RowsOk(rows) && Separated(rows, th) && Covered(rows, th) && TrueHashes(images, rows)
  }

  /** A duplicate's hash finds an original again. */
  lemma DuplicateFoundAgain(images: Images, rows: Rows, id: ItemId, th: int, listing: seq<Entry>)
    requires Steady(images, rows, th) && IsDuplicate(rows, id)
    requires IsListing(MarkProcessing(rows, id), rows[id].tenant, listing)
    ensures var r := FindDuplicate(rows[id].phash.value, listing, th); r.Ok? && r.value.Some?
  {
    var rows1, phash := MarkProcessing(rows, id), rows[id].phash.value;
    assert PointsAtOriginal(rows, id, th);
    var o := rows[id].duplicateOf.value;
    assert Listed(rows1[o], rows[id].tenant);
    var j :| 0 <= j < |listing| && listing[j] == (o, rows1[o].phash.value);
    assert Compared(listing[j]) && !FarApart(phash, listing[j].1, th);
    var k := FindDuplicateMeaning(phash, listing, th);
    forall i | 0 <= i < |listing| && Compared(listing[i]) ensures HammingDistance(phash, listing[i].1).Some? {
      var b := listing[i].0;
      assert Listed(rows1[b], rows[id].tenant) && InIndex(rows, b);
      if b != o {
        assert FarApart(rows[b].phash.value, rows[o].phash.value, th);
      }
    }
  }

  lemma AttemptOnSettled(images: Images, d: Data, id: ItemId, a: Attempt, th: int, listing: seq<Entry>)
    requires Steady(images, d.rows, th) && SettledItem(d.rows, id)
    requires FaultFree(a) && LegalListing(d, id, a, listing) && (id in d.rows ==> Faithful(images, a, d.rows[id]))
    ensures var (d', exit) := RunOnce(d, id, a, th, listing);
            exit.Returned? && Unchanged(d, d')
  {
    if IsDuplicate(d.rows, id) {
      DuplicateFoundAgain(images, d.rows, id, th, listing);
    }
  }

  /** Redeliveries: settled jobs pushed again, or handled without faults. */
  ghost predicate Redelivery(images: Images, w: World, s: Step) {
    match s
    case Inject(p) => p.Job? && SettledItem(w.data.rows, p.itemId)
    case Work(env, _) => FaultFree(env.attempt) && Legal(w, s) && FaithfulStep(images, w, s)
    case _ => false
  }

  function Replay(w: World, steps: seq<Step>, cfg: Settings): World {
    if steps == [] then w else Apply(Replay(w, steps[..|steps| - 1], cfg), steps[|steps| - 1], cfg)
  }

  ghost predicate Redeliveries(images: Images, w: World, steps: seq<Step>, cfg: Settings) {
    steps == [] || (Redeliveries(images, w, steps[..|steps| - 1], cfg)
                    && Redelivery(images, Replay(w, steps[..|steps| - 1], cfg), steps[|steps| - 1]))
  }

  ghost predicate OnlySettledJobs(w: World) {
    forall i :: 0 <= i < |w.queue| && w.queue[i].Job? ==> SettledItem(w.data.rows, w.queue[i].itemId)
  }

  lemma UnchangedKeepsSteady(images: Images, d: Data, d': Data, th: int)
    requires Steady(images, d.rows, th) && Unchanged(d, d') && Covered(d'.rows, th)
    ensures Steady(images, d'.rows, th)
    ensures forall id :: SettledItem(d.rows, id) ==> SettledItem(d'.rows, id)
  {
  }

  lemma RedeliveryStep(images: Images, w: World, s: Step, cfg: Settings)
    requires Steady(images, w.data.rows, cfg.threshold) && OnlySettledJobs(w) && Redelivery(images, w, s)
    ensures var w' := Apply(w, s, cfg);
            Unchanged(w.data, w'.data) && Steady(images, w'.data.rows, cfg.threshold) && OnlySettledJobs(w')
  {
    if s.Work? && w.queue != [] {
      var w' := Apply(w, s, cfg);
      TurnData(w, s.env, cfg, s.listing);
      TurnShape(w, s.env, cfg, s.listing);
      if NextJob(w).Some? {
        var id, a := NextJob(w).value.itemId, s.env.attempt;
        AttemptOnSettled(images, w.data, id, a, cfg.threshold, s.listing);
        AttemptKeepsCover(w.data, id, a, cfg.threshold, s.listing);
        UnchangedKeepsSteady(images, w.data, w'.data, cfg.threshold);
      }
    }
  }

  /** Any multiset of redelivered jobs for settled items, handled in any order and
      number without faults: the index, its references, the vector store and the
      version counters stay as they were, and no item changes status. */
  lemma {:induction false} RedeliveryIsHarmless(images: Images, w: World, steps: seq<Step>, cfg: Settings)
    requires Steady(images, w.data.rows, cfg.threshold) && OnlySettledJobs(w)
    requires Redeliveries(images, w, steps, cfg)
    ensures var w' := Replay(w, steps, cfg);
            Unchanged(w.data, w'.data) && Steady(images, w'.data.rows, cfg.threshold) && OnlySettledJobs(w')
  {
    if steps != [] {
      RedeliveryIsHarmless(images, w, steps[..|steps| - 1], cfg);
      RedeliveryStep(images, Replay(w, steps[..|steps| - 1], cfg), steps[|steps| - 1], cfg);
    }
  }

  /** The states those redeliveries start from are the ones undisturbed runs reach. */
  lemma RunsAreSteady(images: Images, steps: seq<Step>, cfg: Settings)
    requires LegalRun(steps, cfg) && FaithfulRun(images, steps, cfg) && NeverOrphans(steps, cfg)
    ensures Steady(images, Run(steps, cfg).data.rows, cfg.threshold)
  {
    IndexIsSeparated(steps, cfg);
    CoverHolds(steps, cfg);
    HashesStayTrue(images, steps, cfg);
  }
}
