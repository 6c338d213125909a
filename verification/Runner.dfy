/** The consumption loop: one job popped, one disposition; retries with backoff,
    dead letters, and why the queue drains. */
module Runner {
  import opened Common
  import opened Dedup
  import opened VectorStore
  import opened Ingestion

  // ---- Jobs ----

  /** `job.get("attempts", 0)`: absent, a number, or something `int` rejects. */
  datatype Attempts = Missing | Count(n: int) | Unreadable

  /** A queue payload: a JSON object with an item id (and other fields, kept as
      they are), or anything else. */
  datatype Payload = NotAJob(raw: string) | Job(itemId: ItemId, attempts: Attempts, rest: map<string, Json>)

  datatype Settings = Settings(maxAttempts: int, backoff: real, threshold: int)

  /** What happens around one job: the attempt itself, and whether the separate
      unit of work that marks the item failed can reach the database. */
  datatype Environment = Environment(attempt: Attempt, failFaults: bool)

  /** Crash: an exception left `handle`, so the loop drops the job. */
  datatype Disposition = Done | Retry | DeadLetter | Crash

  /** History: which payload was handled, how, and how long the worker slept. */
  datatype Handled = Handled(payload: Payload, disposition: Disposition, pause: real)

  /** `queue` and `dead` are Redis lists: pushed on the left, popped on the right. */
  datatype World = World(data: Data, queue: seq<Payload>, dead: seq<Payload>, ledger: seq<Handled>)

  // ---- One job as a function ----

  function MarkItemFailed(d: Data, id: ItemId, reason: FailureReason, faults: bool): Data {
    if faults then d else d.(rows := MarkFailed(d.rows, id, reason))
  }

  function AttemptsOf(p: Payload): int
    requires p.Job?
  {
    if p.attempts.Count? then p.attempts.n else 0
  }

  function Close(w: World, p: Payload, d: Disposition, pause: real): World {
    w.(ledger := w.ledger + [Handled(p, d, pause)])
  }

  function Bury(w: World, p: Payload): World {
    Close(w.(dead := [p] + w.dead), p, DeadLetter, 0.0)
  }

  /** `_handle` on a payload that was already popped. */
  function Handle(w: World, p: Payload, env: Environment, cfg: Settings, listing: seq<Entry>): World {
    if p.NotAJob? then Bury(w, p)
    else if p.attempts.Unreadable? then Close(w, p, Crash, 0.0)
    else
      var (data, exit) := RunOnce(w.data, p.itemId, env.attempt, cfg.threshold, listing);
      Settle(w.(data := data), p, exit, env, cfg)
  }

  /** What becomes of the job once its attempt has ended. */
  function Settle(w: World, p: Payload, exit: Exit, env: Environment, cfg: Settings): World
    requires p.Job?
  {
    match exit
    case Returned(_) => Close(w, p, Done, 0.0)
    case Raised(Permanent(m)) =>
      Bury(w.(data := MarkItemFailed(w.data, p.itemId, PermanentFailure(m), env.failFaults)), p)
    case Raised(Transient(m)) => AfterTransient(w, p, m, env, cfg)
  }

  function Pause(attempts: int, cfg: Settings): real { cfg.backoff * attempts as real }

  function AfterTransient(w: World, p: Payload, message: string, env: Environment, cfg: Settings): World
    requires p.Job?
  {
    var attempts := AttemptsOf(p) + 1;
    var pause := Pause(attempts, cfg);
    if attempts >= cfg.maxAttempts then
      Bury(w.(data := MarkItemFailed(w.data, p.itemId, Exhausted(attempts, message), env.failFaults)), p)
    else if pause < 0.0 then Close(w, p, Crash, 0.0)
    else Close(w.(queue := [p.(attempts := Count(attempts))] + w.queue), p, Retry, pause)
  }

  /** One turn of `run_forever`: an empty queue is an idle timeout. */
  function Turn(w: World, env: Environment, cfg: Settings, listing: seq<Entry>): World {
    if w.queue == [] then w
    else Handle(w.(queue := w.queue[..|w.queue| - 1]), w.queue[|w.queue| - 1], env, cfg, listing)
  }

  function Turns(w: World, envs: nat -> Environment, cfg: Settings, listings: seq<seq<Entry>>): World {
    if listings == [] then w
    else
      var n := |listings| - 1;
      Turn(Turns(w, envs, cfg, listings[..n]), envs(n), cfg, listings[n])
  }

  // ---- The classes ----

  class RedisList {
    var items: seq<Payload>

    constructor ()
      ensures items == []
    {
      items := [];
    }

    method LeftPush(p: Payload)
      modifies this
      ensures items == [p] + old(items)
    {
      items := [p] + items;
    }

    method RightPop() returns (p: Payload)
      requires items != []
      modifies this
      ensures old(items) == items + [p]
    {
      p := items[|items| - 1];
      items := items[..|items| - 1];
    }
  }

  class IngestionRunner {
    const db: Database
    const vectors: InMemoryVectorStore
    const bumper: RedisIndexVersionBumper
    const queue: RedisList
    const deadLetters: RedisList
    const settings: Settings
    ghost var ledger: seq<Handled>

    constructor (db: Database, vectors: InMemoryVectorStore, bumper: RedisIndexVersionBumper,
                 queue: RedisList, deadLetters: RedisList, settings: Settings)
      requires queue != deadLetters
      ensures this.db == db && this.vectors == vectors && this.bumper == bumper && this.settings == settings
      ensures this.queue == queue && this.deadLetters == deadLetters && ledger == []
    {
      this.db, this.vectors, this.bumper, this.settings := db, vectors, bumper, settings;
      this.queue, this.deadLetters, this.ledger := queue, deadLetters, [];
    }

    ghost predicate Valid() { queue != deadLetters }

    function Committed(): Data
      reads db, vectors, bumper.client
    {
      Data(db.rows, db.refs, vectors.collections, bumper.client.versions)
    }

    ghost function Snapshot(): World
      reads this, db, vectors, bumper.client, queue, deadLetters
    {
      World(Committed(), queue.items, deadLetters.items, ledger)
    }

    /** `_run_once` with `processor_factory`: a fresh session per job. */
    method RunJob(id: ItemId, a: Attempt) returns (exit: Exit, ghost listing: seq<Entry>)
      modifies db, vectors, bumper.client
      ensures (Committed(), exit) == RunOnce(old(Committed()), id, a, settings.threshold, listing)
      ensures LegalListing(old(Committed()), id, a, listing)
    {
      var session := new SqlAlchemyItemStore(db);
      var processor := new IngestionProcessor(session, vectors, bumper, settings.threshold);
      exit, listing := processor.ProcessItem(id, a);
      if exit.Returned? {
        if a.db.AtCommit? {
          exit := Raised(DATABASE_ERROR);
        } else {
          session.Commit();
        }
      }
    }

    method FailItem(id: ItemId, reason: FailureReason, faults: bool)
      modifies db
      ensures Committed() == MarkItemFailed(old(Committed()), id, reason, faults)
    {
      if !faults {
        var session := new SqlAlchemyItemStore(db);
        session.SetFailed(id, reason);
        session.Commit();
      }
    }

    method HandlePayload(p: Payload, env: Environment) returns (disposition: Disposition, ghost listing: seq<Entry>)
      requires Valid()
      modifies this`ledger, db, vectors, bumper.client, queue, deadLetters
      ensures Snapshot() == Handle(old(Snapshot()), p, env, settings, listing)
      ensures ledger != [] && ledger[|ledger| - 1].disposition == disposition
      ensures p.Job? && !p.attempts.Unreadable? ==> LegalListing(old(Committed()), p.itemId, env.attempt, listing)
    {
      listing := [];
      if p.NotAJob? {
        deadLetters.LeftPush(p);
        ledger := ledger + [Handled(p, DeadLetter, 0.0)];
        return DeadLetter, listing;
      }
      if p.attempts.Unreadable? {
        ledger := ledger + [Handled(p, Crash, 0.0)];
        return Crash, listing;
      }
      var exit: Exit;
      exit, listing := RunJob(p.itemId, env.attempt);
      ghost var w := Snapshot();
      assert w == old(Snapshot()).(data := RunOnce(old(Committed()), p.itemId, env.attempt, settings.threshold, listing).0);
      if exit.Returned? {
        ledger := ledger + [Handled(p, Done, 0.0)];
        return Done, listing;
      }
      if exit.fault.Permanent? {
        FailItem(p.itemId, PermanentFailure(exit.fault.message), env.failFaults);
        deadLetters.LeftPush(p);
        ledger := ledger + [Handled(p, DeadLetter, 0.0)];
        return DeadLetter, listing;
      }
      disposition := RetryOrBury(p, exit.fault.message, env);
    }

    /** The tail of `_handle` after a transient fault. */
    method RetryOrBury(p: Payload, message: string, env: Environment) returns (disposition: Disposition)
      requires Valid() && p.Job?
      modifies this`ledger, db, queue, deadLetters
      ensures Snapshot() == AfterTransient(old(Snapshot()), p, message, env, settings)
      ensures ledger != [] && ledger[|ledger| - 1].disposition == disposition
    {
      var attempts := AttemptsOf(p) + 1;
      if attempts >= settings.maxAttempts {
        FailItem(p.itemId, Exhausted(attempts, message), env.failFaults);
        deadLetters.LeftPush(p);
        ledger := ledger + [Handled(p, DeadLetter, 0.0)];
        return DeadLetter;
      }
      var pause := Pause(attempts, settings);
      if pause < 0.0 {
        ledger := ledger + [Handled(p, Crash, 0.0)];
        return Crash;
      }
      queue.LeftPush(p.(attempts := Count(attempts)));
      ledger := ledger + [Handled(p, Retry, pause)];
      return Retry;
    }

    /** `run_forever` from a filled queue with no new jobs arriving: it ends, with
        the queue empty, after as many turns as it asked the database for. */
    method Drain(envs: nat -> Environment) returns (turns: nat, ghost listings: seq<seq<Entry>>)
      requires Valid()
      modifies this`ledger, db, vectors, bumper.client, queue, deadLetters
      ensures queue.items == [] && turns == |listings|
      ensures Snapshot() == Turns(old(Snapshot()), envs, settings, listings)
      ensures turns <= QueueWeight(old(queue.items), settings, None)
    {
      turns, listings := 0, [];
      while queue.items != []
        invariant turns == |listings|
        invariant Snapshot() == Turns(old(Snapshot()), envs, settings, listings)
        invariant turns + QueueWeight(queue.items, settings, None) <= QueueWeight(old(queue.items), settings, None)
        decreases QueueWeight(queue.items, settings, None)
      {
        ghost var before := Snapshot();
        var listing := HandleNext(envs(turns));
        TurnLowersWeight(before, envs(turns), settings, listing, None);
        assert (listings + [listing])[..|listings|] == listings;
        turns, listings := turns + 1, listings + [listing];
      }
    }

    /** The loop's body once BRPOP has found a payload. */
    method HandleNext(env: Environment) returns (ghost listing: seq<Entry>)
      requires Valid() && queue.items != []
      modifies this`ledger, db, vectors, bumper.client, queue, deadLetters
      ensures Snapshot() == Turn(old(Snapshot()), env, settings, listing)
    {
      var p := queue.RightPop();
      assert old(queue.items)[..|old(queue.items)| - 1] == queue.items;
      assert Snapshot() == old(Snapshot()).(queue := queue.items);
      var disposition;
      disposition, listing := HandlePayload(p, env);
    }
  }

  // ---- Measures over the queue ----

  /** Retries of one job are told apart from other jobs by everything but the
      attempt count. */
  function Identity(p: Payload): Payload {
    if p.Job? then p.(attempts := Missing) else p
  }

  predicate Counted(p: Payload, only: Option<Payload>) {
    only.None? || Identity(p) == only.value
  }

  /** How often a payload can still be handled. */
  function Weight(p: Payload, cfg: Settings): nat {
    if p.Job? && !p.attempts.Unreadable? && cfg.maxAttempts - AttemptsOf(p) > 1
    then cfg.maxAttempts - AttemptsOf(p) else 1
  }

  function QueueWeight(q: seq<Payload>, cfg: Settings, only: Option<Payload>): nat {
    if q == [] then 0
    else QueueWeight(q[..|q| - 1], cfg, only) + (if Counted(q[|q| - 1], only) then Weight(q[|q| - 1], cfg) else 0)
  }

  /** How long retries of a job with `attempts` behind it can still pause. */
  function Pauses(attempts: int, cfg: Settings): real
    decreases cfg.maxAttempts - attempts
  {
    if attempts + 1 >= cfg.maxAttempts || Pause(attempts + 1, cfg) < 0.0 then 0.0
    else Pause(attempts + 1, cfg) + Pauses(attempts + 1, cfg)
  }

  function PausesOf(p: Payload, cfg: Settings): real {
    if p.Job? && !p.attempts.Unreadable? then Pauses(AttemptsOf(p), cfg) else 0.0
  }

  function QueuePauses(q: seq<Payload>, cfg: Settings, only: Option<Payload>): real {
    if q == [] then 0.0
    else QueuePauses(q[..|q| - 1], cfg, only) + (if Counted(q[|q| - 1], only) then PausesOf(q[|q| - 1], cfg) else 0.0)
  }

  function Slept(ledger: seq<Handled>, only: Option<Payload>): real {
    if ledger == [] then 0.0
    else
      var h := ledger[|ledger| - 1];
      Slept(ledger[..|ledger| - 1], only) + (if Counted(h.payload, only) then h.pause else 0.0)
  }

  /** How often payloads were handled. */
  function Handlings(ledger: seq<Handled>, only: Option<Payload>): nat {
    if ledger == [] then 0
    else Handlings(ledger[..|ledger| - 1], only) + (if Counted(ledger[|ledger| - 1].payload, only) then 1 else 0)
  }

  /** Jobs that left the system: done, dead-lettered or dropped. */
  function Settled(ledger: seq<Handled>, only: Option<Payload>): nat {
    if ledger == [] then 0
    else
      var h := ledger[|ledger| - 1];
      Settled(ledger[..|ledger| - 1], only) + (if Counted(h.payload, only) && !h.disposition.Retry? then 1 else 0)
  }

  function Waiting(q: seq<Payload>, only: Option<Payload>): nat {
    if q == [] then 0 else Waiting(q[..|q| - 1], only) + (if Counted(q[|q| - 1], only) then 1 else 0)
  }

  function Buried(ledger: seq<Handled>): seq<Payload> {
    if ledger == [] then []
    else
      var h := ledger[|ledger| - 1];
      (if h.disposition.DeadLetter? then [h.payload] else []) + Buried(ledger[..|ledger| - 1])
  }

  // ---- Pushing on the left of a list measured from the right ----

  lemma {:induction false} WeightOfPush(p: Payload, q: seq<Payload>, cfg: Settings, only: Option<Payload>)
    ensures QueueWeight([p] + q, cfg, only) == QueueWeight(q, cfg, only) + (if Counted(p, only) then Weight(p, cfg) else 0)
  {
    if q == [] {
      assert [p] + q == [p] && [p][..0] == [];
    } else {
      assert ([p] + q)[..|q|] == [p] + q[..|q| - 1];
      WeightOfPush(p, q[..|q| - 1], cfg, only);
    }
  }

  lemma {:induction false} PausesOfPush(p: Payload, q: seq<Payload>, cfg: Settings, only: Option<Payload>)
    ensures QueuePauses([p] + q, cfg, only) == QueuePauses(q, cfg, only) + (if Counted(p, only) then PausesOf(p, cfg) else 0.0)
  {
    if q == [] {
      assert [p] + q == [p] && [p][..0] == [];
    } else {
      assert ([p] + q)[..|q|] == [p] + q[..|q| - 1];
      PausesOfPush(p, q[..|q| - 1], cfg, only);
    }
  }

  lemma {:induction false} WaitingOfPush(p: Payload, q: seq<Payload>, only: Option<Payload>)
    ensures Waiting([p] + q, only) == Waiting(q, only) + (if Counted(p, only) then 1 else 0)
  {
    if q == [] {
      assert [p] + q == [p] && [p][..0] == [];
    } else {
      assert ([p] + q)[..|q|] == [p] + q[..|q| - 1];
      WaitingOfPush(p, q[..|q| - 1], only);
    }
  }

  lemma {:induction false} PausesNonNegative(attempts: int, cfg: Settings)
    ensures Pauses(attempts, cfg) >= 0.0
    decreases cfg.maxAttempts - attempts
  {
    if attempts + 1 < cfg.maxAttempts && Pause(attempts + 1, cfg) >= 0.0 {
      PausesNonNegative(attempts + 1, cfg);
    }
  }

  // ---- One turn ----

  /** What one turn does to the lists: the popped payload gets exactly one ledger
      entry, and goes back to the queue only as a retry with one attempt more. */
  predicate TurnedInto(w: World, w': World, cfg: Settings)
    requires w.queue != []
  {
    var p, rest := w.queue[|w.queue| - 1], w.queue[..|w.queue| - 1];
    && |w'.ledger| == |w.ledger| + 1 && w'.ledger[..|w.ledger|] == w.ledger
    && var h := w'.ledger[|w.ledger|];
    && h.payload == p
    && w'.dead == (if h.disposition.DeadLetter? then [p] else []) + w.dead
    && (if h.disposition.Retry? then
          && p.Job? && !p.attempts.Unreadable? && AttemptsOf(p) + 1 < cfg.maxAttempts
          && w'.queue == [p.(attempts := Count(AttemptsOf(p) + 1))] + rest
          && h.pause == Pause(AttemptsOf(p) + 1, cfg) >= 0.0
        else w'.queue == rest && h.pause == 0.0)
  }

  lemma SettledShape(w: World, d: Data, p: Payload, exit: Exit, env: Environment, cfg: Settings)
    requires w.queue != [] && p == w.queue[|w.queue| - 1] && p.Job? && !p.attempts.Unreadable?
    ensures TurnedInto(w, Settle(w.(queue := w.queue[..|w.queue| - 1], data := d), p, exit, env, cfg), cfg)
  {
    assert [] + w.dead == w.dead;
  }

  lemma TurnShape(w: World, env: Environment, cfg: Settings, listing: seq<Entry>)
    requires w.queue != []
    ensures TurnedInto(w, Turn(w, env, cfg, listing), cfg)
  {
    var p := w.queue[|w.queue| - 1];
    if p.Job? && !p.attempts.Unreadable? {
      var (data, exit) := RunOnce(w.data, p.itemId, env.attempt, cfg.threshold, listing);
      SettledShape(w, data, p, exit, env, cfg);
    } else {
      assert [] + w.dead == w.dead;
    }
  }

  lemma ShapeLowersWeight(w: World, w': World, cfg: Settings, only: Option<Payload>)
    requires w.queue != [] && TurnedInto(w, w', cfg)
    ensures Handlings(w'.ledger, only) + QueueWeight(w'.queue, cfg, only) <= Handlings(w.ledger, only) + QueueWeight(w.queue, cfg, only)
    ensures only.None? ==> QueueWeight(w'.queue, cfg, only) < QueueWeight(w.queue, cfg, only)
  {
    var p, rest := w.queue[|w.queue| - 1], w.queue[..|w.queue| - 1];
    if w'.ledger[|w.ledger|].disposition.Retry? {
      WeightOfPush(p.(attempts := Count(AttemptsOf(p) + 1)), rest, cfg, only);
    }
  }

  lemma TurnLowersWeight(w: World, env: Environment, cfg: Settings, listing: seq<Entry>, only: Option<Payload>)
    requires w.queue != []
    ensures var w' := Turn(w, env, cfg, listing);
            Handlings(w'.ledger, only) + QueueWeight(w'.queue, cfg, only) <= Handlings(w.ledger, only) + QueueWeight(w.queue, cfg, only)
    ensures only.None? ==> QueueWeight(Turn(w, env, cfg, listing).queue, cfg, only) < QueueWeight(w.queue, cfg, only)
  {
    TurnShape(w, env, cfg, listing);
    ShapeLowersWeight(w, Turn(w, env, cfg, listing), cfg, only);
  }

  lemma ShapeSleeps(w: World, w': World, cfg: Settings, only: Option<Payload>)
    requires w.queue != [] && TurnedInto(w, w', cfg)
    ensures Slept(w'.ledger, only) + QueuePauses(w'.queue, cfg, only) <= Slept(w.ledger, only) + QueuePauses(w.queue, cfg, only)
  {
    var p, rest := w.queue[|w.queue| - 1], w.queue[..|w.queue| - 1];
    if w'.ledger[|w.ledger|].disposition.Retry? {
      PausesOfPush(p.(attempts := Count(AttemptsOf(p) + 1)), rest, cfg, only);
    } else if p.Job? && !p.attempts.Unreadable? {
      PausesNonNegative(AttemptsOf(p), cfg);
    }
  }

  lemma TurnSleeps(w: World, env: Environment, cfg: Settings, listing: seq<Entry>, only: Option<Payload>)
    requires w.queue != []
    ensures var w' := Turn(w, env, cfg, listing);
            Slept(w'.ledger, only) + QueuePauses(w'.queue, cfg, only) <= Slept(w.ledger, only) + QueuePauses(w.queue, cfg, only)
  {
    TurnShape(w, env, cfg, listing);
    ShapeSleeps(w, Turn(w, env, cfg, listing), cfg, only);
  }

  lemma ShapeConserves(w: World, w': World, cfg: Settings, only: Option<Payload>)
    requires w.queue != [] && TurnedInto(w, w', cfg)
    ensures Waiting(w'.queue, only) + Settled(w'.ledger, only) == Waiting(w.queue, only) + Settled(w.ledger, only)
    ensures w.dead == Buried(w.ledger) ==> w'.dead == Buried(w'.ledger)
  {
    var p, rest := w.queue[|w.queue| - 1], w.queue[..|w.queue| - 1];
    if w'.ledger[|w.ledger|].disposition.Retry? {
      WaitingOfPush(p.(attempts := Count(AttemptsOf(p) + 1)), rest, only);
    }
  }

  lemma TurnConserves(w: World, env: Environment, cfg: Settings, listing: seq<Entry>, only: Option<Payload>)
    requires w.queue != []
    ensures var w' := Turn(w, env, cfg, listing);
            && Waiting(w'.queue, only) + Settled(w'.ledger, only) == Waiting(w.queue, only) + Settled(w.ledger, only)
            && (w.dead == Buried(w.ledger) ==> w'.dead == Buried(w'.ledger))
  {
    TurnShape(w, env, cfg, listing);
    ShapeConserves(w, Turn(w, env, cfg, listing), cfg, only);
  }

  // ---- Whole runs of the loop ----

  /** At every moment of a run: jobs are conserved (each is waiting or settled,
      never both, never lost), no job is handled more often than its weight
      allows, and no job's retries pause longer than its backoff allows. */
  lemma {:induction false} RunsAreBounded(w: World, envs: nat -> Environment, cfg: Settings, listings: seq<seq<Entry>>, only: Option<Payload>)
    requires w.ledger == [] && w.dead == []
    ensures var w' := Turns(w, envs, cfg, listings);
            && Waiting(w'.queue, only) + Settled(w'.ledger, only) == Waiting(w.queue, only)
            && w'.dead == Buried(w'.ledger)
            && Handlings(w'.ledger, only) + QueueWeight(w'.queue, cfg, only) <= QueueWeight(w.queue, cfg, only)
            && Slept(w'.ledger, only) + QueuePauses(w'.queue, cfg, only) <= QueuePauses(w.queue, cfg, only)
  {
    if listings != [] {
      var n := |listings| - 1;
      RunsAreBounded(w, envs, cfg, listings[..n], only);
      var v := Turns(w, envs, cfg, listings[..n]);
      if v.queue != [] {
        TurnConserves(v, envs(n), cfg, listings[n], only);
        TurnLowersWeight(v, envs(n), cfg, listings[n], only);
        TurnSleeps(v, envs(n), cfg, listings[n], only);
      }
    }
  }

  /** With no new jobs the queue is empty after at most its weight in turns,
      whatever goes wrong on the way. */
  lemma {:induction false} QueueDrains(w: World, envs: nat -> Environment, cfg: Settings, listings: seq<seq<Entry>>)
    ensures Turns(w, envs, cfg, listings).queue == []
            || QueueWeight(Turns(w, envs, cfg, listings).queue, cfg, None) + |listings| <= QueueWeight(w.queue, cfg, None)
    ensures |listings| >= QueueWeight(w.queue, cfg, None) ==> Turns(w, envs, cfg, listings).queue == []
  {
    if listings != [] {
      var n := |listings| - 1;
      QueueDrains(w, envs, cfg, listings[..n]);
      var v := Turns(w, envs, cfg, listings[..n]);
      if v.queue != [] {
        TurnLowersWeight(v, envs(n), cfg, listings[n], None);
      }
    }
    var q := Turns(w, envs, cfg, listings).queue;
    if q != [] { assert QueueWeight(q, cfg, None) >= Weight(q[|q| - 1], cfg) >= 1; }
  }

  // ---- A fresh job in closed form ----

  /** a + 1, a + 2, ..., n - 1 added up. */
  function Gaps(a: int, n: int): int
    decreases n - a
  {
    if a + 1 >= n then 0 else a + 1 + Gaps(a + 1, n)
  }

  lemma {:induction false} GapsClosedForm(a: int, n: int)
    requires a < n
    ensures 2 * Gaps(a, n) == n * (n - 1) - a * (a + 1)
    decreases n - a
  {
    if a + 1 < n {
      GapsClosedForm(a + 1, n);
      assert (a + 1) * (a + 2) == a * (a + 1) + 2 * (a + 1);
    } else {
      assert n == a + 1;
    }
  }

  lemma PauseAdds(x: int, y: int, cfg: Settings)
    ensures Pause(x + y, cfg) == Pause(x, cfg) + Pause(y, cfg)
    ensures cfg.backoff >= 0.0 && x >= 0 ==> Pause(x, cfg) >= 0.0
  {
  }

  lemma {:induction false} PausesAreGaps(attempts: int, cfg: Settings)
    requires cfg.backoff >= 0.0 && attempts >= 0
    ensures Pauses(attempts, cfg) == Pause(Gaps(attempts, cfg.maxAttempts), cfg)
    decreases cfg.maxAttempts - attempts
  {
    if attempts + 1 < cfg.maxAttempts {
      PausesAreGaps(attempts + 1, cfg);
      PauseAdds(attempts + 1, Gaps(attempts + 1, cfg.maxAttempts), cfg);
    }
  }

  /** A lone fresh job: at most `max_attempts` runs (one if that is below one), and
      backoff pauses of base * max * (max - 1) / 2 if every one of them is used. */
  lemma FreshJobBounds(p: Payload, cfg: Settings)
    requires p.Job? && p.attempts == Count(0)
    ensures QueueWeight([p], cfg, None) == QueueWeight([p], cfg, Some(Identity(p))) == (if cfg.maxAttempts > 1 then cfg.maxAttempts else 1)
    ensures cfg.backoff >= 0.0 && cfg.maxAttempts >= 1 ==>
              QueuePauses([p], cfg, None) == cfg.backoff * (cfg.maxAttempts * (cfg.maxAttempts - 1) / 2) as real
  {
    assert [p][..0] == [];
    if cfg.backoff >= 0.0 && cfg.maxAttempts >= 1 {
      PausesAreGaps(0, cfg);
      GapsClosedForm(0, cfg.maxAttempts);
      assert Gaps(0, cfg.maxAttempts) == cfg.maxAttempts * (cfg.maxAttempts - 1) / 2;
    }
  }

  // ---- Every job of every run in closed form ----

  /** No attempts counted below zero; fresh jobs, retries and malformed payloads all fit. */
  predicate NotNegative(p: Payload) { p.Job? && !p.attempts.Unreadable? ==> AttemptsOf(p) >= 0 }

  /** Most runs of one job. */
  function MostRuns(cfg: Settings): nat { if cfg.maxAttempts > 1 then cfg.maxAttempts else 1 }

  /** Longest total pause of one job. */
  function LongestPause(cfg: Settings): real {
    if cfg.backoff >= 0.0 && cfg.maxAttempts >= 1 then Pause(cfg.maxAttempts * (cfg.maxAttempts - 1) / 2, cfg) else 0.0
  }

  lemma GapsBound(a: int, n: int)
    requires a >= 0
    ensures 0 <= Gaps(a, n) && (n >= 1 ==> Gaps(a, n) <= n * (n - 1) / 2) && (n < 1 ==> Gaps(a, n) == 0)
  {
    if a < n {
      GapsClosedForm(a, n);
      GapsPositive(a, n);
    } else if n >= 1 {
      GapsClosedForm(0, n);
      GapsPositive(0, n);
    }
  }

  lemma {:induction false} GapsPositive(a: int, n: int)
    requires a >= 0
    ensures Gaps(a, n) >= 0
    decreases n - a
  {
    if a + 1 < n { GapsPositive(a + 1, n); }
  }

  lemma PauseGrows(x: int, y: int, cfg: Settings)
    requires x <= y && cfg.backoff >= 0.0
    ensures Pause(x, cfg) <= Pause(y, cfg)
  {
    PauseAdds(x, y - x, cfg);
  }

  lemma PauseOfPayload(p: Payload, cfg: Settings)
    requires NotNegative(p)
    ensures PausesOf(p, cfg) <= LongestPause(cfg)
  {
    if p.Job? && !p.attempts.Unreadable? {
      var a := AttemptsOf(p);
      if cfg.backoff >= 0.0 {
        PausesAreGaps(a, cfg);
        GapsBound(a, cfg.maxAttempts);
        if cfg.maxAttempts >= 1 {
          PauseGrows(Gaps(a, cfg.maxAttempts), cfg.maxAttempts * (cfg.maxAttempts - 1) / 2, cfg);
        }
      } else {
        NoPauseBelowZero(a + 1, cfg);
      }
    }
    LongestPauseNonNegative(cfg);
  }

  lemma NoPauseBelowZero(x: int, cfg: Settings)
    requires cfg.backoff < 0.0 && x > 0
    ensures Pause(x, cfg) < 0.0
  {
  }

  lemma LongestPauseNonNegative(cfg: Settings)
    ensures LongestPause(cfg) >= 0.0
  {
    if cfg.backoff >= 0.0 && cfg.maxAttempts >= 1 {
      GapsBound(0, cfg.maxAttempts);
      PauseAdds(cfg.maxAttempts * (cfg.maxAttempts - 1) / 2, 0, cfg);
    }
  }

  function Share(n: nat, x: real): real { n as real * x }

  lemma ShareGrows(n: nat, x: real)
    ensures Share(n + 1, x) == Share(n, x) + x && Share(0, x) == 0.0
  {
  }

  lemma {:induction false} QueueWeightBound(q: seq<Payload>, cfg: Settings, only: Option<Payload>)
    requires forall i :: 0 <= i < |q| ==> NotNegative(q[i])
    ensures QueueWeight(q, cfg, only) <= Waiting(q, only) * MostRuns(cfg)
  {
    if q != [] {
      QueueWeightBound(q[..|q| - 1], cfg, only);
      OneMore(Waiting(q[..|q| - 1], only), MostRuns(cfg));
    }
  }

  lemma OneMore(n: nat, x: nat)
    ensures (n + 1) * x == n * x + x
  {
  }

  /** `bound` stands for the longest pause, `n` for the jobs counted. */
  lemma {:induction false} QueuePausesBound(q: seq<Payload>, cfg: Settings, only: Option<Payload>, n: nat, bound: real)
    requires forall i :: 0 <= i < |q| ==> PausesOf(q[i], cfg) <= bound
    requires n == Waiting(q, only)
    ensures QueuePauses(q, cfg, only) <= Share(n, bound)
  {
    if q == [] {
      ShareGrows(0, bound);
    } else {
      var m := Waiting(q[..|q| - 1], only);
      QueuePausesBound(q[..|q| - 1], cfg, only, m, bound);
      ShareGrows(m, bound);
    }
  }

  lemma {:induction false} MeasuresNonNegative(q: seq<Payload>, cfg: Settings, only: Option<Payload>)
    ensures QueuePauses(q, cfg, only) >= 0.0
  {
    if q != [] {
      MeasuresNonNegative(q[..|q| - 1], cfg, only);
      if q[|q| - 1].Job? && !q[|q| - 1].attempts.Unreadable? {
        PausesNonNegative(AttemptsOf(q[|q| - 1]), cfg);
      }
    }
  }

  /** At every moment of a run over any queue, each job waiting at the start has
      been handled at most `max_attempts` times (once if that is below one), and
      its retries have paused at most base * max * (max - 1) / 2 in all. `only`
      picks one job, or None for the sum over all. */
  lemma JobsAreBounded(w: World, envs: nat -> Environment, cfg: Settings, listings: seq<seq<Entry>>, only: Option<Payload>)
    requires w.ledger == [] && w.dead == []
    requires forall i :: 0 <= i < |w.queue| ==> NotNegative(w.queue[i])
    ensures var w' := Turns(w, envs, cfg, listings);
            && Handlings(w'.ledger, only) <= Waiting(w.queue, only) * MostRuns(cfg)
            && Slept(w'.ledger, only) <= Share(Waiting(w.queue, only), LongestPause(cfg))
  {
    RunsAreBounded(w, envs, cfg, listings, only);
    QueueWeightBound(w.queue, cfg, only);
    forall i | 0 <= i < |w.queue| ensures PausesOf(w.queue[i], cfg) <= LongestPause(cfg) {
      PauseOfPayload(w.queue[i], cfg);
    }
    QueuePausesBound(w.queue, cfg, only, Waiting(w.queue, only), LongestPause(cfg));
    MeasuresNonNegative(Turns(w, envs, cfg, listings).queue, cfg, only);
  }
}
