/** What every run of the pipeline keeps: registrations, confirms, deletes,
    injected or redelivered jobs and worker turns in any order, with any faults. */
module PipelineRuns {
  import opened Common
  import opened PerceptualHash
  import opened Dedup
  import opened VectorStore
  import opened IndexVersions
  import opened Ingestion
  import opened Runner
  import opened Catalog

  // ---- Runs ----

  datatype Step =
    | Register(id: ItemId, tenant: TenantId, objectKey: string, externalId: Option<string>, metadata: map<string, Json>)
    | Confirm(tenant: TenantId, id: ItemId, stat: Option<nat>)
    | Delete(tenant: TenantId, id: ItemId)
    | Inject(p: Payload)
    | Work(env: Environment, listing: seq<Entry>)

  const EMPTY_WORLD := World(Data(map[], [], map[], map[]), [], [], [])

  function NewRow(s: Step): Row
    requires s.Register?
  {
    Row(s.tenant, s.objectKey, s.externalId, s.metadata, PendingUpload, None, None, None, None, None)
  }

  function Apply(w: World, s: Step, cfg: Settings): World {
    match s
    case Register(id, _, _, _, _) => w.(data := w.data.(rows := w.data.rows[id := NewRow(s)]))
    case Confirm(tenant, id, stat) => Confirmed(w, tenant, id, stat).0
    case Delete(tenant, id) => Deleted(w, tenant, id).0
    case Inject(p) => w.(queue := [p] + w.queue)
    case Work(env, listing) => Turn(w, env, cfg, listing)
  }

  /** The job a worker turn would run, if the next payload is one. */
  function NextJob(w: World): Option<Payload> {
    if w.queue != [] && w.queue[|w.queue| - 1].Job? && !w.queue[|w.queue| - 1].attempts.Unreadable?
    then Some(w.queue[|w.queue| - 1]) else None
  }

  /** Registered ids are fresh UUIDs under a canonical tenant id, and the
      database answers the listing query truthfully. */
  ghost predicate Legal(w: World, s: Step) {
    match s
    case Register(id, tenant, _, _, _) =>
      id !in w.data.rows && CanonicalUuid(tenant) && forall name :: name in w.data.store ==> !Has(w.data.store[name], id)
    case Work(env, listing) =>
      NextJob(w).Some? ==> LegalListing(w.data, NextJob(w).value.itemId, env.attempt, listing)
    case _ => true
  }

  ghost predicate LegalRun(steps: seq<Step>, cfg: Settings) {
    steps == [] || (LegalRun(steps[..|steps| - 1], cfg) && Legal(Run(steps[..|steps| - 1], cfg), steps[|steps| - 1]))
  }

  function Run(steps: seq<Step>, cfg: Settings): World {
    if steps == [] then EMPTY_WORLD else Apply(Run(steps[..|steps| - 1], cfg), steps[|steps| - 1], cfg)
  }

  // ---- One attempt, by cases ----

  /** Rows after an attempt that committed something. */
  function Committed(d: Data, id: ItemId, a: Attempt, exit: Exit): Rows
    requires id in d.rows && a.embed.Ok?
  {
    var rows := MarkProcessing(d.rows, id);
    match exit
    case Returned(IndexedNow) => MarkIndexed(rows, id, a.embed.value.phash, a.now)
    case Returned(DuplicateOf(original)) => MarkDuplicate(rows, id, a.embed.value.phash, original)
    case _ => d.rows
  }

  lemma AttemptRows(d: Data, id: ItemId, a: Attempt, th: int, listing: seq<Entry>)
    ensures var (d', exit) := RunOnce(d, id, a, th, listing);
            && (exit.Raised? || exit.outcome.Skipped? ==> d'.rows == d.rows && d'.refs == d.refs)
            && (exit.Returned? && !exit.outcome.Skipped? ==>
                  && AsksForListing(d, id, a) && d'.rows == Committed(d, id, a, exit)
                  && FindDuplicate(a.embed.value.phash, listing, th)
                     == Ok(if exit.outcome.DuplicateOf? then Some(exit.outcome.original) else None))
  {
  }

  lemma AttemptEffects(d: Data, id: ItemId, a: Attempt, th: int, listing: seq<Entry>)
    ensures var (d', exit) := RunOnce(d, id, a, th, listing);
            && (exit == Returned(IndexedNow) ==>
                  && AsksForListing(d, id, a)
                  && d'.refs == d.refs + [EmbeddingRef(id, CollectionName(d.rows[id].tenant), id, a.embed.value.modelVersion)]
                  && d'.store == Upserted(d.store, d.rows[id].tenant, [RecordFor(id, d.rows[id], a.embed.value)])
                  && d'.versions == if a.bumpFails then d.versions else Bumped(d.versions, d.rows[id].tenant))
            && (exit.Returned? && !exit.outcome.IndexedNow? ==> d' == d.(rows := d'.rows))
  {
  }

  lemma AttemptStore(d: Data, id: ItemId, a: Attempt, th: int, listing: seq<Entry>)
    ensures var d' := RunOnce(d, id, a, th, listing).0;
            d'.store == d.store
            || (id in d.rows && d'.store == Ensured(d.store, d.rows[id].tenant))
            || (AsksForListing(d, id, a) && d'.store == Upserted(d.store, d.rows[id].tenant, [RecordFor(id, d.rows[id], a.embed.value)]))
  {
  }

  /** A failed or skipped attempt leaves rows and references exactly as they were;
      any other commits one decision about its own row. Vectors and counters are
      not rolled back. */
  lemma AttemptCases(d: Data, id: ItemId, a: Attempt, th: int, listing: seq<Entry>)
    ensures var (d', exit) := RunOnce(d, id, a, th, listing);
            && (exit.Raised? || exit.outcome.Skipped? ==> d'.rows == d.rows && d'.refs == d.refs)
            && (exit.Returned? && !exit.outcome.Skipped? ==>
                  && AsksForListing(d, id, a) && d'.rows == Committed(d, id, a, exit)
                  && FindDuplicate(a.embed.value.phash, listing, th)
                     == Ok(if exit.outcome.DuplicateOf? then Some(exit.outcome.original) else None))
            && (exit == Returned(IndexedNow) ==>
                  && d'.refs == d.refs + [EmbeddingRef(id, CollectionName(d.rows[id].tenant), id, a.embed.value.modelVersion)]
                  && d'.store == Upserted(d.store, d.rows[id].tenant, [RecordFor(id, d.rows[id], a.embed.value)])
                  && d'.versions == if a.bumpFails then d.versions else Bumped(d.versions, d.rows[id].tenant))
            && (exit.Returned? && !exit.outcome.IndexedNow? ==> d' == d.(rows := d'.rows))
            && (d'.store == d.store
                || (id in d.rows && d'.store == Ensured(d.store, d.rows[id].tenant))
                || (AsksForListing(d, id, a) && d'.store == Upserted(d.store, d.rows[id].tenant, [RecordFor(id, d.rows[id], a.embed.value)])))
  {
    AttemptRows(d, id, a, th, listing);
    AttemptEffects(d, id, a, th, listing);
    AttemptStore(d, id, a, th, listing);
  }

  // ---- Separation ----

  predicate InIndex(rows: Rows, id: ItemId) { id in rows && rows[id].status.Indexed? }

  ghost predicate RowsOk(rows: Rows) {
    && (forall id :: InIndex(rows, id) ==> rows[id].phash.Some? && rows[id].indexedAt.Some?)
    && (forall id :: id in rows ==> CanonicalUuid(rows[id].tenant))
  }

  predicate HasHash(row: Row) { row.phash.Some? && row.phash.value != "" }

  /** No two indexed items of a tenant are near-duplicates of each other. (Blank
      hashes are never compared.) */
  ghost predicate Separated(rows: Rows, th: int) {
    forall a, b :: InIndex(rows, a) && InIndex(rows, b) && a != b && rows[a].tenant == rows[b].tenant
                   && HasHash(rows[a]) && HasHash(rows[b]) ==>
      FarApart(rows[a].phash.value, rows[b].phash.value, th)
  }

  predicate SameIndexEntry(a: Row, b: Row) {
    a.tenant == b.tenant && a.phash == b.phash && a.indexedAt == b.indexedAt
  }

  /** No row becomes indexed, and indexed rows keep tenant, hash and time. */
  ghost predicate OnlyDemotes(rows: Rows, rows': Rows) {
    && (forall id :: InIndex(rows', id) ==> InIndex(rows, id) && SameIndexEntry(rows[id], rows'[id]))
    && (forall id :: id in rows' ==> (id in rows && rows'[id].tenant == rows[id].tenant) || CanonicalUuid(rows'[id].tenant))
  }

  lemma DemotingKeepsSeparation(rows: Rows, rows': Rows, th: int)
    requires RowsOk(rows) && Separated(rows, th) && OnlyDemotes(rows, rows')
    ensures RowsOk(rows') && Separated(rows', th)
  {
  }

  /** A newly indexed row is far from every indexed row the listing showed. */
  lemma IndexingKeepsSeparation(rows: Rows, id: ItemId, phash: string, now: nat, th: int, listing: seq<Entry>)
    requires id in rows && !InIndex(rows, id) && RowsOk(rows) && Separated(rows, th)
    requires IsListing(MarkProcessing(rows, id), rows[id].tenant, listing)
    requires FindDuplicate(phash, listing, th) == Ok(None)
    ensures var rows' := MarkIndexed(MarkProcessing(rows, id), id, phash, now);
            RowsOk(rows') && Separated(rows', th)
  {
    var rows1 := MarkProcessing(rows, id);
    var rows' := MarkIndexed(rows1, id, phash, now);
    var _ := FindDuplicateMeaning(phash, listing, th);
    forall b | InIndex(rows', b) && b != id && rows'[b].tenant == rows[id].tenant && HasHash(rows'[b]) && phash != ""
      ensures FarApart(phash, rows'[b].phash.value, th) && FarApart(rows'[b].phash.value, phash, th)
    {
      assert Listed(rows1[b], rows[id].tenant);
      var j :| 0 <= j < |listing| && listing[j] == (b, rows1[b].phash.value);
      assert Compared(listing[j]);
      HammingSymmetric(phash, rows'[b].phash.value);
    }
  }

  lemma HammingSymmetric(a: string, b: string)
    ensures HammingDistance(a, b) == HammingDistance(b, a)
  {
    if ParseHex(a).Some? && ParseHex(b).Some? {
      HammingIsMetric(a, b, a);
    }
  }

  lemma AttemptKeepsSeparation(d: Data, id: ItemId, a: Attempt, th: int, listing: seq<Entry>)
    requires RowsOk(d.rows) && Separated(d.rows, th) && LegalListing(d, id, a, listing)
    ensures var d' := RunOnce(d, id, a, th, listing).0;
            RowsOk(d'.rows) && Separated(d'.rows, th)
  {
    AttemptCases(d, id, a, th, listing);
    var (d', exit) := RunOnce(d, id, a, th, listing);
    if exit == Returned(IndexedNow) {
      IndexingKeepsSeparation(d.rows, id, a.embed.value.phash, a.now, th, listing);
    } else {
      DemotingKeepsSeparation(d.rows, d'.rows, th);
    }
  }

  /** A turn is nothing, or an attempt, possibly followed by marking its item failed. */
  lemma TurnData(w: World, env: Environment, cfg: Settings, listing: seq<Entry>)
    ensures var w' := Turn(w, env, cfg, listing);
            match NextJob(w)
            case None => w'.data == w.data
            case Some(p) =>
              var (d, exit) := RunOnce(w.data, p.itemId, env.attempt, cfg.threshold, listing);
              w'.data == d || (exit.Raised? && !env.failFaults && exists reason :: w'.data == d.(rows := MarkFailed(d.rows, p.itemId, reason)))
  {
    if NextJob(w).Some? {
      var p := NextJob(w).value;
      var (d, exit) := RunOnce(w.data, p.itemId, env.attempt, cfg.threshold, listing);
      if exit.Raised? && !env.failFaults {
        var m := exit.fault.message;
        var reason := if exit.fault.Permanent? then PermanentFailure(m) else Exhausted(AttemptsOf(p) + 1, m);
        assert Turn(w, env, cfg, listing).data == d || Turn(w, env, cfg, listing).data == d.(rows := MarkFailed(d.rows, p.itemId, reason));
      }
    }
  }

  lemma WorkKeepsSeparation(w: World, s: Step, cfg: Settings)
    requires RowsOk(w.data.rows) && Separated(w.data.rows, cfg.threshold) && Legal(w, s) && s.Work?
    ensures RowsOk(Apply(w, s, cfg).data.rows) && Separated(Apply(w, s, cfg).data.rows, cfg.threshold)
  {
    TurnData(w, s.env, cfg, s.listing);
    if NextJob(w).Some? {
      var p := NextJob(w).value;
      AttemptKeepsSeparation(w.data, p.itemId, s.env.attempt, cfg.threshold, s.listing);
      var d := RunOnce(w.data, p.itemId, s.env.attempt, cfg.threshold, s.listing).0;
      DemotingKeepsSeparation(d.rows, Apply(w, s, cfg).data.rows, cfg.threshold);
    }
  }

  lemma StepKeepsSeparation(w: World, s: Step, cfg: Settings)
    requires RowsOk(w.data.rows) && Separated(w.data.rows, cfg.threshold) && Legal(w, s)
    ensures RowsOk(Apply(w, s, cfg).data.rows) && Separated(Apply(w, s, cfg).data.rows, cfg.threshold)
  {
    if s.Work? {
      WorkKeepsSeparation(w, s, cfg);
    } else {
      DemotingKeepsSeparation(w.data.rows, Apply(w, s, cfg).data.rows, cfg.threshold);
    }
  }

  /** In every reachable state, whatever the faults, confirms, deletes and
      redeliveries: distinct indexed items of one tenant have hashes more than
      `threshold` bits apart. */
  lemma {:induction false} IndexIsSeparated(steps: seq<Step>, cfg: Settings)
    requires LegalRun(steps, cfg)
    ensures RowsOk(Run(steps, cfg).data.rows) && Separated(Run(steps, cfg).data.rows, cfg.threshold)
  {
    if steps != [] {
      IndexIsSeparated(steps[..|steps| - 1], cfg);
      StepKeepsSeparation(Run(steps[..|steps| - 1], cfg), steps[|steps| - 1], cfg);
    }
  }

  // ---- With hashes as the ai-service prints them ----

  /** Every embedding of the run carries the printed hash of some picture. */
  ghost predicate TrulyHashed(steps: seq<Step>) {
    forall i :: 0 <= i < |steps| && steps[i].Work? && steps[i].env.attempt.embed.Ok? ==>
      exists bits :: steps[i].env.attempt.embed.value.phash == HashOf(bits)
  }

  lemma {:induction false} HexNeverBlank(value: nat)
    ensures ToHex(value) != ""
  {
  }

  /** Whatever the picture, even one without pixels, its hash is not blank. */
  lemma HashNeverBlank(bits: seq<bool>)
    ensures HashOf(bits) != ""
  {
    HexNeverBlank(BitsValue(bits));
  }

  ghost predicate AllHashed(rows: Rows) { forall id :: InIndex(rows, id) ==> HasHash(rows[id]) }

  lemma StepKeepsHashed(w: World, s: Step, cfg: Settings)
    requires AllHashed(w.data.rows)
    requires s.Work? && s.env.attempt.embed.Ok? ==> s.env.attempt.embed.value.phash != ""
    ensures AllHashed(Apply(w, s, cfg).data.rows)
  {
    if s.Work? {
      TurnData(w, s.env, cfg, s.listing);
      if NextJob(w).Some? {
        AttemptCases(w.data, NextJob(w).value.itemId, s.env.attempt, cfg.threshold, s.listing);
      }
    }
  }

  lemma {:induction false} IndexIsHashed(steps: seq<Step>, cfg: Settings)
    requires TrulyHashed(steps)
    ensures AllHashed(Run(steps, cfg).data.rows)
  {
    if steps != [] {
      var front, s := steps[..|steps| - 1], steps[|steps| - 1];
      assert forall i :: 0 <= i < |front| ==> front[i] == steps[i];
      IndexIsHashed(front, cfg);
      if s.Work? && s.env.attempt.embed.Ok? {
        var bits :| s.env.attempt.embed.value.phash == HashOf(bits);
        HashNeverBlank(bits);
      }
      StepKeepsHashed(Run(front, cfg), s, cfg);
    }
  }

  /** Fed with printed hashes, the index is separated without exception: any two
      indexed items of a tenant have comparable hashes more than `threshold` bits
      apart. */
  lemma IndexIsFullySeparated(steps: seq<Step>, cfg: Settings, a: ItemId, b: ItemId)
    requires LegalRun(steps, cfg) && TrulyHashed(steps)
    ensures var rows := Run(steps, cfg).data.rows;
            InIndex(rows, a) && InIndex(rows, b) && a != b && rows[a].tenant == rows[b].tenant ==>
              && rows[a].phash.Some? && rows[b].phash.Some?
              && FarApart(rows[a].phash.value, rows[b].phash.value, cfg.threshold)
  {
    IndexIsSeparated(steps, cfg);
    IndexIsHashed(steps, cfg);
  }
}
