/** Cache freshness under interleaving. Searches (read version, look up, search,
    store) and index writers (upsert, then bump) take turns one shared-state
    access at a time, in any order and any number. */
module CacheFreshness {
  import opened Common
  import opened VectorStore
  import opened IndexVersions
  import opened SearchPipeline
  import opened SearchService

  datatype Write = Write(tenant: TenantId, record: VectorRecord)

  /** Where a search stands. `finished` remembers, from the moment the version was
      read, which writes of the tenant had completed their bump. */
  datatype Phase =
    | Waiting
    | Keyed(key: ResultKey, finished: set<nat>)
    | Missed(key: ResultKey, finished: set<nat>)
    | Computed(key: ResultKey, finished: set<nat>, page: seq<RankedResult>)
    | Answered(key: ResultKey, finished: set<nat>, page: seq<RankedResult>, cached: bool)
    | Failed

  datatype Flight = Flight(req: Request, phase: Phase)

  /** `log` lists the upserts in the order they hit the vector store; `bumpNo[i]`
      is the counter value the bump of write `i` produced, once it has run. */
  datatype State = State(log: seq<Write>, bumpNo: map<nat, nat>, versions: Versions,
                         results: map<ResultKey, seq<RankedResult>>, flights: map<nat, Flight>)

  datatype Step =
    | Upsert(w: Write)
    | Bump(i: nat)
    | Arrive(r: nat, req: Request)
    | ReadVersion(r: nat)
    | LookUp(r: nat)
    | Compute(r: nat)
    | StorePage(r: nat)
    | Expire(keys: set<ResultKey>)

  const INITIAL := State([], map[], map[], map[], map[])

  function Replay(log: seq<Write>): Store {
    if log == [] then map[]
    else Upserted(Replay(log[..|log| - 1]), log[|log| - 1].tenant, [log[|log| - 1].record])
  }

  function Advance(svc: Service, s: State, f: Flight, step: Step): Phase
    requires ValidParams(f.req.params)
  {
    match (f.phase, step)
    case (Waiting, ReadVersion(_)) =>
      Keyed(KeyFor(svc, VersionOf(s.versions, f.req.tenant), f.req),
            set i | i in s.bumpNo && i < |s.log| && s.log[i].tenant == f.req.tenant)
    case (Keyed(key, finished), LookUp(_)) =>
      if key in s.results then Answered(key, finished, s.results[key], true) else Missed(key, finished)
    case (Missed(key, finished), Compute(_)) =>
      (match Uncached(svc, CollectionOf(Replay(s.log), f.req.tenant), f.req)
       case Ok(page) => Computed(key, finished, page)
       case Err(_) => Failed)
    case (Computed(key, finished, page), StorePage(_)) => Answered(key, finished, page, false)
    case _ => f.phase
  }

  /** One step; a step that is not enabled changes nothing. */
  function Next(svc: Service, s: State, step: Step): State {
    match step
    case Upsert(w) => s.(log := s.log + [w])
    case Bump(i) =>
      if i < |s.log| && i !in s.bumpNo then
        var versions := Bumped(s.versions, s.log[i].tenant);
        s.(bumpNo := s.bumpNo[i := VersionOf(versions, s.log[i].tenant)], versions := versions)
      else s
    case Arrive(r, req) =>
      if r !in s.flights && ValidParams(req.params) then s.(flights := s.flights[r := Flight(req, Waiting)]) else s
    case Expire(keys) => s.(results := s.results - keys)
    case _ => AfterSearchStep(svc, s, step)
  }

  predicate IsSearchStep(step: Step) {
    step.ReadVersion? || step.LookUp? || step.Compute? || step.StorePage?
  }

  function AfterSearchStep(svc: Service, s: State, step: Step): State
    requires IsSearchStep(step)
  {
    var r := step.r;
    if r in s.flights && ValidParams(s.flights[r].req.params) then
      var f := s.flights[r];
      var phase := Advance(svc, s, f, step);
      var results := if step.StorePage? && f.phase.Computed? then s.results[f.phase.key := f.phase.page] else s.results;
      s.(flights := s.flights[r := f.(phase := phase)], results := results)
    else s
  }

  function Run(svc: Service, steps: seq<Step>): State {
    if steps == [] then INITIAL else Next(svc, Run(svc, steps[..|steps| - 1]), steps[|steps| - 1])
  }

  /** Everything the searches of a run have hashed. */
  function InputsOf(svc: Service, steps: seq<Step>): set<Bytes> {
    if steps == [] then {}
    else
      var last := steps[|steps| - 1];
      InputsOf(svc, steps[..|steps| - 1]) + (if last.Arrive? then HashedBy(svc.hashing, last.req.query) else {})
  }

  predicate StepHashes(svc: Service, inputs: set<Bytes>, step: Step) {
    step.Arrive? ==> HashedBy(svc.hashing, step.req.query) <= inputs
  }

  // ---- Invariant ----

  ghost predicate VersionsOk(s: State) {
    forall i :: i in s.bumpNo ==> i < |s.log| && s.bumpNo[i] <= VersionOf(s.versions, s.log[i].tenant)
  }

  /** A page for `key` that is the answer over the first `n` writes, where `n`
      passes every write whose bump is within the key's version. */
  ghost predicate Backed(svc: Service, inputs: set<Bytes>, s: State, key: ResultKey, page: seq<RankedResult>, n: nat) {
    && n <= |s.log|
    && key.version <= VersionOf(s.versions, key.tenant)
    && (forall i :: i in s.bumpNo && i < |s.log| && s.log[i].tenant == key.tenant && s.bumpNo[i] <= key.version ==> i < n)
    && (forall req: Request :: Admissible(svc.hashing, inputs, req) && KeyFor(svc, key.version, req) == key ==>
          Uncached(svc, CollectionOf(Replay(s.log[..n]), key.tenant), req) == Ok(page))
  }

  ghost predicate CacheOk(svc: Service, inputs: set<Bytes>, s: State) {
    forall key :: key in s.results ==> exists n :: Backed(svc, inputs, s, key, s.results[key], n)
  }

  /** The key carries the version that was read, and every write noted as finished
      had its bump within that version. */
  ghost predicate KeyOk(svc: Service, s: State, req: Request, key: ResultKey, finished: set<nat>) {
    && key == KeyFor(svc, key.version, req)
    && key.version <= VersionOf(s.versions, key.tenant)
    && forall i :: i in finished ==> i in s.bumpNo && i < |s.log| && s.log[i].tenant == req.tenant && s.bumpNo[i] <= key.version
  }

  ghost predicate FlightOk(svc: Service, inputs: set<Bytes>, s: State, f: Flight) {
    && Admissible(svc.hashing, inputs, f.req)
    && (f.phase.Keyed? || f.phase.Missed? || f.phase.Computed? || f.phase.Answered? ==>
          KeyOk(svc, s, f.req, f.phase.key, f.phase.finished))
    && (f.phase.Computed? || f.phase.Answered? ==> exists n :: Backed(svc, inputs, s, f.phase.key, f.phase.page, n))
  }

  ghost predicate Inv(svc: Service, inputs: set<Bytes>, s: State) {
    VersionsOk(s) && CacheOk(svc, inputs, s) && forall r :: r in s.flights ==> FlightOk(svc, inputs, s, s.flights[r])
  }

  /** Later states only add writes, and bumps beyond the versions read so far. */
  ghost predicate Grows(s: State, t: State) {
    && |s.log| <= |t.log| && t.log[..|s.log|] == s.log
    && (forall i :: i in s.bumpNo ==> i in t.bumpNo && t.bumpNo[i] == s.bumpNo[i])
    && (forall i :: i in t.bumpNo && i !in s.bumpNo && i < |t.log| ==> t.bumpNo[i] > VersionOf(s.versions, t.log[i].tenant))
    && (forall tenant :: VersionOf(s.versions, tenant) <= VersionOf(t.versions, tenant))
  }

  lemma BackedStable(svc: Service, inputs: set<Bytes>, s: State, t: State, key: ResultKey, page: seq<RankedResult>, n: nat)
    requires VersionsOk(s) && Grows(s, t) && Backed(svc, inputs, s, key, page, n)
    ensures Backed(svc, inputs, t, key, page, n)
  {
    assert t.log[..n] == s.log[..n];
  }

  lemma FlightStable(svc: Service, inputs: set<Bytes>, s: State, t: State, f: Flight)
    requires VersionsOk(s) && Grows(s, t) && FlightOk(svc, inputs, s, f)
    ensures FlightOk(svc, inputs, t, f)
  {
    if f.phase.Computed? || f.phase.Answered? {
      var n :| Backed(svc, inputs, s, f.phase.key, f.phase.page, n);
      BackedStable(svc, inputs, s, t, f.phase.key, f.phase.page, n);
    }
  }

  /** Pages and flights that were in order stay so as writes and bumps arrive. */
  lemma {:induction false} InvStable(svc: Service, inputs: set<Bytes>, s: State, t: State)
    requires VersionsOk(s) && Grows(s, t) && VersionsOk(t)
    requires forall key :: key in t.results ==> exists n :: Backed(svc, inputs, s, key, t.results[key], n)
    requires forall r :: r in t.flights ==> FlightOk(svc, inputs, s, t.flights[r])
    ensures Inv(svc, inputs, t)
  {
    forall key | key in t.results ensures exists n :: Backed(svc, inputs, t, key, t.results[key], n) {
      var n :| Backed(svc, inputs, s, key, t.results[key], n);
      BackedStable(svc, inputs, s, t, key, t.results[key], n);
    }
    forall r | r in t.flights ensures FlightOk(svc, inputs, t, t.flights[r]) {
      FlightStable(svc, inputs, s, t, t.flights[r]);
    }
  }

  lemma {:induction false} AdvanceOk(svc: Service, inputs: set<Bytes>, s: State, f: Flight, step: Step)
    requires Collisionless(svc.hashing, inputs) && VersionsOk(s) && CacheOk(svc, inputs, s) && FlightOk(svc, inputs, s, f)
    ensures FlightOk(svc, inputs, s, f.(phase := Advance(svc, s, f, step)))
  {
    if f.phase.Missed? && step.Compute? {
      var key, col := f.phase.key, CollectionOf(Replay(s.log), f.req.tenant);
      assert s.log[..|s.log|] == s.log;
      if Uncached(svc, col, f.req).Ok? {
        forall req: Request | Admissible(svc.hashing, inputs, req) && KeyFor(svc, key.version, req) == key
          ensures Uncached(svc, col, req) == Uncached(svc, col, f.req)
        {
          KeyDetermines(svc, inputs, key.version, req, f.req, col);
        }
        assert Backed(svc, inputs, s, key, Uncached(svc, col, f.req).value, |s.log|);
      }
    }
  }

  lemma UpsertGrows(s: State, w: Write)
    requires VersionsOk(s)
    ensures Grows(s, s.(log := s.log + [w])) && VersionsOk(s.(log := s.log + [w]))
  {
  }

  lemma BumpGrows(svc: Service, s: State, i: nat)
    requires VersionsOk(s)
    ensures Grows(s, Next(svc, s, Bump(i))) && VersionsOk(Next(svc, s, Bump(i)))
  {
    assert s.log[..|s.log|] == s.log;
  }

  lemma NextGrows(svc: Service, s: State, step: Step)
    requires VersionsOk(s)
    ensures Grows(s, Next(svc, s, step)) && VersionsOk(Next(svc, s, step))
  {
    match step {
      case Upsert(w) => UpsertGrows(s, w);
      case Bump(i) => BumpGrows(svc, s, i);
      case _ =>
        var t := Next(svc, s, step);
        assert t.log == s.log && t.bumpNo == s.bumpNo && t.versions == s.versions;
        assert s.log[..|s.log|] == s.log;
    }
  }

  lemma {:induction false} SearchKeepsInv(svc: Service, inputs: set<Bytes>, s: State, step: Step)
    requires Collisionless(svc.hashing, inputs) && Inv(svc, inputs, s) && IsSearchStep(step) && step.r in s.flights
    ensures Inv(svc, inputs, Next(svc, s, step))
  {
    NextGrows(svc, s, step);
    AdvanceOk(svc, inputs, s, s.flights[step.r], step);
    InvStable(svc, inputs, s, Next(svc, s, step));
  }

  lemma {:induction false} WriterKeepsInv(svc: Service, inputs: set<Bytes>, s: State, step: Step)
    requires Inv(svc, inputs, s) && (step.Upsert? || step.Bump?)
    ensures Inv(svc, inputs, Next(svc, s, step))
  {
    NextGrows(svc, s, step);
    InvStable(svc, inputs, s, Next(svc, s, step));
  }

  lemma {:induction false} ArrivalKeepsInv(svc: Service, inputs: set<Bytes>, s: State, r: nat, req: Request)
    requires Inv(svc, inputs, s) && HashedBy(svc.hashing, req.query) <= inputs
    ensures Inv(svc, inputs, Next(svc, s, Arrive(r, req)))
  {
    var t := Next(svc, s, Arrive(r, req));
    if t != s {
      NextGrows(svc, s, Arrive(r, req));
      assert t.results == s.results;
      assert FlightOk(svc, inputs, s, Flight(req, Waiting));
      InvStable(svc, inputs, s, t);
    }
  }

  lemma {:induction false} ExpiryKeepsInv(svc: Service, inputs: set<Bytes>, s: State, keys: set<ResultKey>)
    requires Inv(svc, inputs, s)
    ensures Inv(svc, inputs, Next(svc, s, Expire(keys)))
  {
    NextGrows(svc, s, Expire(keys));
    InvStable(svc, inputs, s, Next(svc, s, Expire(keys)));
  }

  lemma {:induction false} NextKeepsInv(svc: Service, inputs: set<Bytes>, s: State, step: Step)
    requires Collisionless(svc.hashing, inputs) && Inv(svc, inputs, s) && StepHashes(svc, inputs, step)
    ensures Inv(svc, inputs, Next(svc, s, step))
  {
    if IsSearchStep(step) {
      if step.r in s.flights {
        SearchKeepsInv(svc, inputs, s, step);
      }
    } else if step.Upsert? || step.Bump? {
      WriterKeepsInv(svc, inputs, s, step);
    } else if step.Arrive? {
      ArrivalKeepsInv(svc, inputs, s, step.r, step.req);
    } else {
      ExpiryKeepsInv(svc, inputs, s, step.keys);
    }
  }

  lemma {:induction false} RunKeepsInv(svc: Service, inputs: set<Bytes>, steps: seq<Step>)
    requires Collisionless(svc.hashing, inputs) && InputsOf(svc, steps) <= inputs
    ensures Inv(svc, inputs, Run(svc, steps))
  {
    if steps != [] {
      RunKeepsInv(svc, inputs, steps[..|steps| - 1]);
      NextKeepsInv(svc, inputs, Run(svc, steps[..|steps| - 1]), steps[|steps| - 1]);
    }
  }

  // ---- Freshness of whole runs ----

  /** Search `r` reads the version in state `s`. */
  predicate Reads(s: State, r: nat) {
    r in s.flights && s.flights[r].phase.Waiting? && ValidParams(s.flights[r].req.params)
  }

  /** Search `r` has gone on from the read it made in state `s`, remembering exactly
      the writes of its tenant that had bumped by then. */
  ghost predicate WentOn(s: State, t: State, r: nat)
    requires Reads(s, r)
  {
    && r in t.flights && t.flights[r].req == s.flights[r].req
    && |s.log| <= |t.log| && t.log[..|s.log|] == s.log
    && match t.flights[r].phase
       case Waiting => false
       case Failed => true
       case phase => forall i :: i in phase.finished <==> i in s.bumpNo && i < |s.log| && s.log[i].tenant == s.flights[r].req.tenant
  }

  lemma StepGoesOn(svc: Service, s: State, t: State, r: nat, step: Step)
    requires Reads(s, r) && WentOn(s, t, r)
    ensures WentOn(s, Next(svc, t, step), r)
  {
    match step {
      case Upsert(w) => assert (t.log + [w])[..|s.log|] == s.log;
      case _ =>
    }
  }

  /** What a search remembers when it reads the version: exactly the writes of its
      tenant that had bumped. */
  lemma FinishedAtRead(svc: Service, s: State, r: nat)
    requires Reads(s, r)
    ensures Next(svc, s, ReadVersion(r)).flights[r].phase.Keyed?
    ensures WentOn(s, Next(svc, s, ReadVersion(r)), r)
  {
    assert s.log[..|s.log|] == s.log;
  }

  lemma RunAppend(svc: Service, front: seq<Step>, step: Step)
    ensures Run(svc, front + [step]) == Next(svc, Run(svc, front), step)
  {
    assert (front + [step])[..|front|] == front;
  }

  lemma {:induction false} RunGoesOn(svc: Service, before: seq<Step>, after: seq<Step>, s: State, r: nat)
    requires s == Run(svc, before) && Reads(s, r)
    ensures WentOn(s, Run(svc, before + [ReadVersion(r)] + after), r)
    decreases |after|
  {
    if after == [] {
      assert before + [ReadVersion(r)] + after == before + [ReadVersion(r)];
      RunAppend(svc, before, ReadVersion(r));
      FinishedAtRead(svc, s, r);
    } else {
      var front, step := after[..|after| - 1], after[|after| - 1];
      var sofar := before + [ReadVersion(r)] + front;
      RunGoesOn(svc, before, front, s, r);
      assert before + [ReadVersion(r)] + after == sofar + [step];
      RunAppend(svc, sofar, step);
      StepGoesOn(svc, s, Run(svc, sofar), r, step);
    }
  }

  lemma AnswerIsFresh(svc: Service, inputs: set<Bytes>, read: State, s: State, r: nat) returns (n: nat)
    requires Inv(svc, inputs, s) && Reads(read, r) && WentOn(read, s, r) && s.flights[r].phase.Answered?
    ensures var f := s.flights[r];
            && n <= |s.log|
            && (forall i :: i in read.bumpNo && i < |read.log| && read.log[i].tenant == f.req.tenant ==> i < n)
            && Uncached(svc, CollectionOf(Replay(s.log[..n]), f.req.tenant), f.req) == Ok(f.phase.page)
  {
    var f := s.flights[r];
    assert FlightOk(svc, inputs, s, f);
    n :| Backed(svc, inputs, s, f.phase.key, f.phase.page, n);
  }

  /** Freshness. Whatever the interleaving: if search `r` read its tenant's version
      in step `k` and is answered later (from the cache or not), the answer is that
      of the index after some number of writes which passes every write of the
      tenant whose bump had finished before step `k`. The only assumption on the
      hashes is that no two inputs of this run collide. */
  lemma CacheIsFresh(svc: Service, steps: seq<Step>, k: nat, r: nat) returns (n: nat)
    requires Collisionless(svc.hashing, InputsOf(svc, steps))
    requires k < |steps| && steps[k] == ReadVersion(r) && Reads(Run(svc, steps[..k]), r)
    requires r in Run(svc, steps).flights && Run(svc, steps).flights[r].phase.Answered?
    ensures var read, s := Run(svc, steps[..k]), Run(svc, steps);
            var f := s.flights[r];
            && n <= |s.log|
            && (forall i :: i in read.bumpNo && i < |read.log| && read.log[i].tenant == f.req.tenant ==> i < n)
            && f.req == read.flights[r].req
            && Uncached(svc, CollectionOf(Replay(s.log[..n]), f.req.tenant), f.req) == Ok(f.phase.page)
  {
    var inputs := InputsOf(svc, steps);
    RunKeepsInv(svc, inputs, steps);
    assert steps == steps[..k] + [ReadVersion(r)] + steps[k + 1..];
    RunGoesOn(svc, steps[..k], steps[k + 1..], Run(svc, steps[..k]), r);
    n := AnswerIsFresh(svc, inputs, Run(svc, steps[..k]), Run(svc, steps), r);
  }

  /** Every answered search did read its version at some step. */
  lemma {:induction false} AnsweredHasRead(svc: Service, steps: seq<Step>, r: nat) returns (k: nat)
    requires r in Run(svc, steps).flights && !Run(svc, steps).flights[r].phase.Waiting?
    ensures k < |steps| && steps[k] == ReadVersion(r) && Reads(Run(svc, steps[..k]), r)
    decreases |steps|
  {
    var front := steps[..|steps| - 1];
    var s := Run(svc, front);
    if r in s.flights && !s.flights[r].phase.Waiting? {
      k := AnsweredHasRead(svc, front, r);
      assert front[..k] == steps[..k];
    } else {
      k := |front|;
    }
  }
}
