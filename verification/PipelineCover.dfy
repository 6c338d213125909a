/** Duplicates and their originals: when the indexed set covers every duplicate,
    exactly which steps break the cover, and why redelivery is harmless. */
module PipelineCover {
  import opened Common
  import opened PerceptualHash
  import opened Dedup
  import opened VectorStore
  import opened Ingestion
  import opened Runner
  import opened Catalog
  import opened PipelineRuns
  import opened PipelineStore

  predicate IsDuplicate(rows: Rows, id: ItemId) { id in rows && rows[id].status.Duplicate? }

  /** The row points at a still-indexed item of its tenant within the threshold. */
  predicate PointsAtOriginal(rows: Rows, x: ItemId, th: int)
    requires x in rows
  {
    && rows[x].duplicateOf.Some? && rows[x].phash.Some?
    && var o := rows[x].duplicateOf.value;
    && InIndex(rows, o) && rows[o].tenant == rows[x].tenant && HasHash(rows[o])
    && Within(rows[x].phash.value, rows[o].phash.value, th)
  }

  ghost predicate Covered(rows: Rows, th: int) {
    forall x :: IsDuplicate(rows, x) ==> PointsAtOriginal(rows, x, th)
  }

  /** Some other row is a duplicate of `id`. */
  ghost predicate Cited(rows: Rows, id: ItemId) {
    exists x :: x != id && IsDuplicate(rows, x) && rows[x].duplicateOf == Some(id)
  }

  /** The turn runs an indexed item's job, cannot read or commit its row, has no
      attempts left, and then manages to mark the item failed. */
  predicate FailsIndexedItem(w: World, env: Environment, cfg: Settings) {
    && NextJob(w).Some?
    && var p := NextJob(w).value;
    && InIndex(w.data.rows, p.itemId)
    && (env.attempt.db.AtGet? || env.attempt.db.AtCommit?) && !env.failFaults
    && AttemptsOf(p) + 1 >= cfg.maxAttempts
  }

  /** The step takes an original away from its duplicates: a confirm or a delete
      of a cited item, or a cited item failed by a database fault. */
  ghost predicate Orphans(w: World, s: Step, cfg: Settings) {
    match s
    case Confirm(tenant, id, stat) => Owned(w.data.rows, tenant, id) && stat.Some? && Cited(w.data.rows, id)
    case Delete(tenant, id) => Owned(w.data.rows, tenant, id) && Cited(w.data.rows, id)
    case Work(env, _) => FailsIndexedItem(w, env, cfg) && Cited(w.data.rows, NextJob(w).value.itemId)
    case _ => false
  }

  /** Rows that agree except that `id` changed to something neither indexed nor a
      duplicate, or disappeared: the cover survives unless `id` was cited. */
  lemma LosingOne(rows: Rows, rows': Rows, id: ItemId, th: int)
    requires Covered(rows, th)
    requires rows'.Keys == rows.Keys || rows'.Keys == rows.Keys - {id}
    requires forall x :: x in rows' && x != id ==> rows'[x] == rows[x]
    requires !InIndex(rows', id) && !IsDuplicate(rows', id)
    ensures Covered(rows', th) <==> !Cited(rows, id)
  {
    if Cited(rows, id) {
      var x :| x != id && IsDuplicate(rows, x) && rows[x].duplicateOf == Some(id);
      assert IsDuplicate(rows', x) && !PointsAtOriginal(rows', x, th);
    } else {
      forall x | IsDuplicate(rows', x) ensures PointsAtOriginal(rows', x, th) {
        assert IsDuplicate(rows, x) && rows[x].duplicateOf != Some(id);
      }
    }
  }

  /** A cover citing `id` has `id` in the index. */
  lemma CitedIsIndexed(rows: Rows, id: ItemId, th: int)
    requires Covered(rows, th) && Cited(rows, id)
    ensures InIndex(rows, id)
  {
  }

  lemma AttemptKeepsCover(d: Data, id: ItemId, a: Attempt, th: int, listing: seq<Entry>)
    requires Covered(d.rows, th) && LegalListing(d, id, a, listing)
    ensures Covered(RunOnce(d, id, a, th, listing).0.rows, th)
  {
    AttemptCases(d, id, a, th, listing);
    var (d', exit) := RunOnce(d, id, a, th, listing);
    if exit.Returned? && exit.outcome.DuplicateOf? {
      var rows1 := MarkProcessing(d.rows, id);
      var phash := a.embed.value.phash;
      var k := FindDuplicateMeaning(phash, listing, th);
      assert Listed(rows1[listing[k].0], d.rows[id].tenant);
      assert PointsAtOriginal(d'.rows, id, th);
    }
    forall x | IsDuplicate(d'.rows, x) && x != id ensures PointsAtOriginal(d'.rows, x, th) {
      assert IsDuplicate(d.rows, x) && d'.rows[x] == d.rows[x];
    }
  }

  /** When an attempt raises on an indexed item, the database was at fault. */
  lemma RaisedOnIndexed(d: Data, id: ItemId, a: Attempt, th: int, listing: seq<Entry>)
    requires InIndex(d.rows, id)
    ensures RunOnce(d, id, a, th, listing).1.Raised? <==> a.db.AtGet? || a.db.AtCommit?
    ensures RunOnce(d, id, a, th, listing).1.Raised? ==> RunOnce(d, id, a, th, listing).1.fault == DATABASE_ERROR
  {
  }

  lemma WorkAndCover(w: World, env: Environment, listing: seq<Entry>, cfg: Settings)
    requires Covered(w.data.rows, cfg.threshold) && Legal(w, Work(env, listing))
    ensures Covered(Turn(w, env, cfg, listing).data.rows, cfg.threshold) <==> !Orphans(w, Work(env, listing), cfg)
  {
    TurnData(w, env, cfg, listing);
    if NextJob(w).Some? {
      var p := NextJob(w).value;
      var id, a := p.itemId, env.attempt;
      AttemptKeepsCover(w.data, id, a, cfg.threshold, listing);
      AttemptCases(w.data, id, a, cfg.threshold, listing);
      var (d, exit) := RunOnce(w.data, id, a, cfg.threshold, listing);
      if InIndex(w.data.rows, id) {
        RaisedOnIndexed(w.data, id, a, cfg.threshold, listing);
      } else if Cited(w.data.rows, id) {
        CitedIsIndexed(w.data.rows, id, cfg.threshold);
      }
      var rows' := Turn(w, env, cfg, listing).data.rows;
      if rows' != d.rows {
        assert exit.Raised? && d.rows == w.data.rows;
        LosingOne(w.data.rows, rows', id, cfg.threshold);
      }
    }
  }

  lemma CatalogAndCover(w: World, s: Step, cfg: Settings)
    requires Covered(w.data.rows, cfg.threshold) && Legal(w, s) && !s.Work?
    ensures Covered(Apply(w, s, cfg).data.rows, cfg.threshold) <==> !Orphans(w, s, cfg)
  {
    var rows, rows' := w.data.rows, Apply(w, s, cfg).data.rows;
    if s.Confirm? && Owned(rows, s.tenant, s.id) && s.stat.Some? {
      LosingOne(rows, rows', s.id, cfg.threshold);
    } else if s.Delete? && Owned(rows, s.tenant, s.id) {
      LosingOne(rows, rows', s.id, cfg.threshold);
    } else {
      forall x | IsDuplicate(rows', x) ensures PointsAtOriginal(rows', x, cfg.threshold) {
        assert IsDuplicate(rows, x) && rows'[x] == rows[x];
      }
    }
  }

  /** Exactly the orphaning steps break the cover. */
  lemma StepAndCover(w: World, s: Step, cfg: Settings)
    requires Covered(w.data.rows, cfg.threshold) && Legal(w, s)
    ensures Covered(Apply(w, s, cfg).data.rows, cfg.threshold) <==> !Orphans(w, s, cfg)
  {
    if s.Work? {
      WorkAndCover(w, s.env, s.listing, cfg);
    } else {
      CatalogAndCover(w, s, cfg);
    }
  }

  ghost predicate NeverOrphans(steps: seq<Step>, cfg: Settings) {
    steps == [] || (NeverOrphans(steps[..|steps| - 1], cfg) && !Orphans(Run(steps[..|steps| - 1], cfg), steps[|steps| - 1], cfg))
  }

  ghost predicate AlwaysCovered(steps: seq<Step>, cfg: Settings) {
    Covered(Run(steps, cfg).data.rows, cfg.threshold) && (steps == [] || AlwaysCovered(steps[..|steps| - 1], cfg))
  }

  /** Over whole runs: every duplicate always points at a still-indexed original
      of its tenant exactly when no step orphans one. */
  lemma {:induction false} CoverHolds(steps: seq<Step>, cfg: Settings)
    requires LegalRun(steps, cfg)
    ensures AlwaysCovered(steps, cfg) <==> NeverOrphans(steps, cfg)
  {
    if steps != [] {
      var before, s := steps[..|steps| - 1], steps[|steps| - 1];
      CoverHolds(before, cfg);
      if AlwaysCovered(before, cfg) {
        assert Covered(Run(before, cfg).data.rows, cfg.threshold);
        StepAndCover(Run(before, cfg), s, cfg);
      }
    }
  }

  /** A step of an undisturbed run: no delete, no confirm of an indexed item, the
      database up. Any other fault may happen. */
  predicate Undisturbed(w: World, s: Step) {
    match s
    case Confirm(_, id, _) => !InIndex(w.data.rows, id)
    case Delete(_, _) => false
    case Work(env, _) => env.attempt.db.DbUp?
    case _ => true
  }

  ghost predicate UndisturbedRun(steps: seq<Step>, cfg: Settings) {
    steps == [] || (UndisturbedRun(steps[..|steps| - 1], cfg) && Undisturbed(Run(steps[..|steps| - 1], cfg), steps[|steps| - 1]))
  }

  lemma UndisturbedNeverOrphans(w: World, s: Step, cfg: Settings)
    requires Covered(w.data.rows, cfg.threshold) && Undisturbed(w, s)
    ensures !Orphans(w, s, cfg)
  {
    match s {
      case Confirm(_, id, _) => if Cited(w.data.rows, id) { CitedIsIndexed(w.data.rows, id, cfg.threshold); }
      case _ =>
    }
  }

  /** Undisturbed runs stay covered. */
  lemma {:induction false} UndisturbedRunsAreCovered(steps: seq<Step>, cfg: Settings)
    requires LegalRun(steps, cfg) && UndisturbedRun(steps, cfg)
    ensures NeverOrphans(steps, cfg) && Covered(Run(steps, cfg).data.rows, cfg.threshold)
  {
    if steps != [] {
      var w, s := Run(steps[..|steps| - 1], cfg), steps[|steps| - 1];
      UndisturbedRunsAreCovered(steps[..|steps| - 1], cfg);
      UndisturbedNeverOrphans(w, s, cfg);
      StepAndCover(w, s, cfg);
    }
  }

  /** Pairwise far apart, as a set. */
  ghost predicate SeparatedSet(rows: Rows, ids: set<ItemId>, th: int) {
    forall a, b :: a in ids && b in ids && a != b && a in rows && b in rows && HasHash(rows[a]) && HasHash(rows[b]) ==>
      FarApart(rows[a].phash.value, rows[b].phash.value, th)
  }

  /** Covered and separated: a tenant's indexed items are a maximal separated
      subset of its processed ones. Adding any duplicates breaks separation. */
  lemma IndexIsMaximal(rows: Rows, th: int, tenant: TenantId, ids: set<ItemId>)
    requires RowsOk(rows) && Separated(rows, th) && Covered(rows, th)
    requires forall id :: InIndex(rows, id) && rows[id].tenant == tenant ==> id in ids
    requires forall id :: id in ids ==> id in rows && rows[id].tenant == tenant && (InIndex(rows, id) || IsDuplicate(rows, id))
    ensures SeparatedSet(rows, ids, th) <==> forall id :: id in ids ==> InIndex(rows, id)
  {
    if x :| x in ids && !InIndex(rows, x) {
      var o := rows[x].duplicateOf.value;
      assert PointsAtOriginal(rows, x, th);
      assert o in ids && x != o;
      assert ParseHex(rows[x].phash.value).Some?;
      assert rows[x].phash.value != "";
      assert !FarApart(rows[x].phash.value, rows[o].phash.value, th);
    }
  }

  // ---- A legal run that orphans a duplicate ----

  const PICTURE := Embedding([1.0], "0", "m")
  const CLEAN_ENV := Environment(Attempt(DbUp, Ok([]), Ok(PICTURE), VectorsUp, false, 1), false)

  /** Two items of one tenant with the same picture, registered, confirmed and
      worked off one after the other; then the indexed one is confirmed again. */
  function ReconfirmRun(tenant: TenantId): seq<Step> {
    [ Register("a", tenant, "key-a", None, map[]),
      Confirm(tenant, "a", Some(1)),
      Work(CLEAN_ENV, []),
      Register("b", tenant, "key-b", None, map[]),
      Confirm(tenant, "b", Some(1)),
      Work(CLEAN_ENV, [("a", "0")]),
      Confirm(tenant, "a", Some(1)) ]
  }

  function FirstRow(tenant: TenantId): Row {
    Row(tenant, "key-a", None, map[], Indexed, Some("0"), None, None, Some(1), Some(1))
  }

  function SecondRow(tenant: TenantId): Row {
    Row(tenant, "key-b", None, map[], Duplicate, Some("0"), Some("a"), None, None, Some(1))
  }

  lemma ExtendRun(front: seq<Step>, s: Step, cfg: Settings)
    requires LegalRun(front, cfg) && Legal(Run(front, cfg), s)
    ensures LegalRun(front + [s], cfg) && Run(front + [s], cfg) == Apply(Run(front, cfg), s, cfg)
  {
    assert (front + [s])[..|front|] == front;
  }

  lemma FirstConfirmed(tenant: TenantId, cfg: Settings)
    requires CanonicalUuid(tenant)
    ensures var w := Run(ReconfirmRun(tenant)[..2], cfg);
            && LegalRun(ReconfirmRun(tenant)[..2], cfg)
            && w.data.rows == map["a" := Row(tenant, "key-a", None, map[], Queued, None, None, None, None, Some(1))]
            && w.data.store == map[] && w.queue == [FreshJob("a", w.data.rows["a"])]
  {
    var run := ReconfirmRun(tenant);
    assert run[..0] == [];
    ExtendRun([], run[0], cfg);
    assert run[..1] == [] + [run[0]];
    ExtendRun(run[..1], run[1], cfg);
    assert run[..2] == run[..1] + [run[1]];
  }

  lemma FirstWorked(w: World, tenant: TenantId, cfg: Settings)
    requires cfg.threshold >= 0 && w.data.store == map[]
    requires w.data.rows == map["a" := Row(tenant, "key-a", None, map[], Queued, None, None, None, None, Some(1))]
    requires w.queue == [FreshJob("a", w.data.rows["a"])]
    ensures Legal(w, Work(CLEAN_ENV, []))
    ensures var w' := Apply(w, Work(CLEAN_ENV, []), cfg);
            && w'.data.rows == map["a" := FirstRow(tenant)] && w'.queue == []
            && w'.data.store == Upserted(map[], tenant, [RecordFor("a", w.data.rows["a"], PICTURE)])
  {
    assert w.queue[..0] == [];
  }

  lemma NothingOfSecond(store: Store, tenant: TenantId, rec: VectorRecord)
    requires store == Upserted(map[], tenant, [rec]) && rec.id == "a"
    ensures forall name :: name in store ==> !Has(store[name], "b")
  {
    UpsertOne(map[], tenant, rec, tenant);
  }

  lemma FirstIndexed(tenant: TenantId, cfg: Settings)
    requires CanonicalUuid(tenant) && cfg.threshold >= 0
    ensures var w := Run(ReconfirmRun(tenant)[..3], cfg);
            && LegalRun(ReconfirmRun(tenant)[..3], cfg)
            && w.data.rows == map["a" := FirstRow(tenant)]
            && w.queue == [] && forall name :: name in w.data.store ==> !Has(w.data.store[name], "b")
  {
    var run := ReconfirmRun(tenant);
    FirstConfirmed(tenant, cfg);
    var w := Run(run[..2], cfg);
    FirstWorked(w, tenant, cfg);
    ExtendRun(run[..2], run[2], cfg);
    assert run[..3] == run[..2] + [run[2]];
    NothingOfSecond(Run(run[..3], cfg).data.store, tenant, RecordFor("a", w.data.rows["a"], PICTURE));
  }

  lemma SecondAdded(w: World, tenant: TenantId, cfg: Settings)
    requires CanonicalUuid(tenant) && w.data.rows == map["a" := FirstRow(tenant)] && w.queue == []
    requires forall name :: name in w.data.store ==> !Has(w.data.store[name], "b")
    ensures Legal(w, ReconfirmRun(tenant)[3])
    ensures var w' := Apply(Apply(w, ReconfirmRun(tenant)[3], cfg), ReconfirmRun(tenant)[4], cfg);
            && w'.data.rows == map["a" := FirstRow(tenant),
                                   "b" := Row(tenant, "key-b", None, map[], Queued, None, None, None, None, Some(1))]
            && w'.queue == [FreshJob("b", w'.data.rows["b"])]
  {
  }

  lemma SecondConfirmed(tenant: TenantId, cfg: Settings)
    requires CanonicalUuid(tenant) && cfg.threshold >= 0
    ensures var w := Run(ReconfirmRun(tenant)[..5], cfg);
            && LegalRun(ReconfirmRun(tenant)[..5], cfg)
            && w.data.rows == map["a" := FirstRow(tenant),
                                  "b" := Row(tenant, "key-b", None, map[], Queued, None, None, None, None, Some(1))]
            && w.queue == [FreshJob("b", w.data.rows["b"])]
  {
    var run := ReconfirmRun(tenant);
    FirstIndexed(tenant, cfg);
    SecondAdded(Run(run[..3], cfg), tenant, cfg);
    ExtendRun(run[..3], run[3], cfg);
    assert run[..4] == run[..3] + [run[3]];
    ExtendRun(run[..4], run[4], cfg);
    assert run[..5] == run[..4] + [run[4]];
  }

  lemma SamePictureFound(th: int)
    requires th >= 0
    ensures FindDuplicate("0", [("a", "0")], th) == Ok(Some("a"))
  {
    HammingIsMetric("0", "0", "0");
    assert HammingDistance("0", "0") == Some(0);
  }

  lemma SecondWorked(w: World, tenant: TenantId, cfg: Settings)
    requires cfg.threshold >= 0
    requires w.data.rows == map["a" := FirstRow(tenant),
                                "b" := Row(tenant, "key-b", None, map[], Queued, None, None, None, None, Some(1))]
    requires w.queue == [FreshJob("b", w.data.rows["b"])]
    ensures Legal(w, Work(CLEAN_ENV, [("a", "0")]))
    ensures Apply(w, Work(CLEAN_ENV, [("a", "0")]), cfg).data.rows == map["a" := FirstRow(tenant), "b" := SecondRow(tenant)]
  {
    SamePictureFound(cfg.threshold);
    assert IsListing(MarkProcessing(w.data.rows, "b"), tenant, [("a", "0")]);
  }

  lemma SecondIsDuplicate(tenant: TenantId, cfg: Settings)
    requires CanonicalUuid(tenant) && cfg.threshold >= 0
    ensures var w := Run(ReconfirmRun(tenant)[..6], cfg);
            && LegalRun(ReconfirmRun(tenant)[..6], cfg)
            && w.data.rows == map["a" := FirstRow(tenant), "b" := SecondRow(tenant)]
  {
    var run := ReconfirmRun(tenant);
    SecondConfirmed(tenant, cfg);
    SecondWorked(Run(run[..5], cfg), tenant, cfg);
    ExtendRun(run[..5], run[5], cfg);
    assert run[..6] == run[..5] + [run[5]];
  }

  lemma SecondIsCovered(rows: Rows, tenant: TenantId, th: int)
    requires th >= 0 && rows == map["a" := FirstRow(tenant), "b" := SecondRow(tenant)]
    ensures Covered(rows, th) && Cited(rows, "a")
  {
    HammingIsMetric("0", "0", "0");
    assert PointsAtOriginal(rows, "b", th);
    assert IsDuplicate(rows, "b") && rows["b"].duplicateOf == Some("a");
  }

  /** Confirming an indexed item again, which the catalog allows, does break a
      cover on a legal, fault-free run: the duplicate is left pointing at a queued row. */
  lemma ReconfirmOrphans(tenant: TenantId, cfg: Settings)
    requires CanonicalUuid(tenant) && cfg.threshold >= 0
    ensures LegalRun(ReconfirmRun(tenant), cfg)
    ensures Covered(Run(ReconfirmRun(tenant)[..6], cfg).data.rows, cfg.threshold)
    ensures !Covered(Run(ReconfirmRun(tenant), cfg).data.rows, cfg.threshold)
  {
    var run := ReconfirmRun(tenant);
    SecondIsDuplicate(tenant, cfg);
    var w := Run(run[..6], cfg);
    SecondIsCovered(w.data.rows, tenant, cfg.threshold);
    ExtendRun(run[..6], run[6], cfg);
    assert run == run[..6] + [run[6]];
    StepAndCover(w, run[6], cfg);
  }
}
