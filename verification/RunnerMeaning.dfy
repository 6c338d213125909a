/** One turn of the loop, spelled out: which disposition each ending of an attempt
    gets, when the row ends up failed, and how a job that never succeeds runs
    through all its attempts. */
module RunnerMeaning {
  import opened Common
  import opened Dedup
  import opened Ingestion
  import opened IngestionMeaning
  import opened Runner

  /** The payload has `n` attempts behind it. */
  predicate Tried(p: Payload, n: int) {
    p.Job? && (p.attempts == Count(n) || (p.attempts.Missing? && n == 0))
  }

  predicate Transiently(exit: Exit) { exit.Raised? && exit.fault.Transient? }
  predicate Permanently(exit: Exit) { exit.Raised? && exit.fault.Permanent? }

  /** What happened in the turn from `w` to `w'`. */
  function LastOf(w: World, w': World): Handled
    requires |w'.ledger| == |w.ledger| + 1
  {
    w'.ledger[|w.ledger|]
  }

  /** The rule of one turn, from the popped payload and how its attempt ended. */
  predicate DisposedBy(p: Payload, n: int, exit: Exit, cfg: Settings, d: Disposition) {
    && (d == Done <==> exit.Returned?)
    && (d == Retry <==> Transiently(exit) && n + 1 < cfg.maxAttempts && cfg.backoff * (n + 1) as real >= 0.0)
    && (d == DeadLetter <==> Permanently(exit) || (Transiently(exit) && n + 1 >= cfg.maxAttempts))
    && (d == Crash <==> Transiently(exit) && n + 1 < cfg.maxAttempts && cfg.backoff * (n + 1) as real < 0.0)
  }

  lemma SettleDisposes(w: World, p: Payload, n: int, exit: Exit, env: Environment, cfg: Settings)
    requires Tried(p, n)
    ensures var w' := Settle(w, p, exit, env, cfg);
            && |w'.ledger| == |w.ledger| + 1
            && DisposedBy(p, n, exit, cfg, LastOf(w, w').disposition)
  {
    assert Pause(n + 1, cfg) == cfg.backoff * (n + 1) as real;
  }

  /** Exactly when a turn retries, finishes, buries or drops its job. */
  lemma DispositionExactly(w: World, env: Environment, cfg: Settings, listing: seq<Entry>, n: int)
    requires w.queue != []
    ensures var p, w' := w.queue[|w.queue| - 1], Turn(w, env, cfg, listing);
            && |w'.ledger| == |w.ledger| + 1
            && var d := LastOf(w, w').disposition;
            && (p.NotAJob? ==> d == DeadLetter)
            && (p.Job? && p.attempts.Unreadable? ==> d == Crash)
            && (Tried(p, n) ==> DisposedBy(p, n, RunOnce(w.data, p.itemId, env.attempt, cfg.threshold, listing).1, cfg, d))
  {
    var p := w.queue[|w.queue| - 1];
    if Tried(p, n) {
      var (data, exit) := RunOnce(w.data, p.itemId, env.attempt, cfg.threshold, listing);
      SettleDisposes(w.(queue := w.queue[..|w.queue| - 1], data := data), p, n, exit, env, cfg);
    }
  }

  // ---- When a row ends up failed ----

  /** Why a buried job's row is marked. */
  function ReasonFor(exit: Exit, n: int): FailureReason
    requires exit.Raised?
  {
    match exit.fault
    case Permanent(m) => PermanentFailure(m)
    case Transient(m) => Exhausted(n + 1, m)
  }

  lemma SettleMarks(w: World, p: Payload, n: int, exit: Exit, env: Environment, cfg: Settings)
    requires Tried(p, n)
    ensures var w' := Settle(w, p, exit, env, cfg);
            && |w'.ledger| == |w.ledger| + 1
            && w'.data == w.data.(rows := w'.data.rows)
            && w'.data.rows ==
               if LastOf(w, w').disposition.DeadLetter? && exit.Raised? && !env.failFaults && p.itemId in w.data.rows
               then w.data.rows[p.itemId := w.data.rows[p.itemId].(status := Failed, failure := Some(ReasonFor(exit, n)))]
               else w.data.rows
  {
  }

  /** A row is marked failed exactly if its job is buried and the database can be
      reached for it: with the message of the permanent fault, or with the number
      of attempts and the last message. Nothing else changes after the attempt. */
  lemma FailsExactly(w: World, env: Environment, cfg: Settings, listing: seq<Entry>, n: int)
    requires w.queue != [] && Tried(w.queue[|w.queue| - 1], n)
    ensures var p, w' := w.queue[|w.queue| - 1], Turn(w, env, cfg, listing);
            var (d, exit) := RunOnce(w.data, p.itemId, env.attempt, cfg.threshold, listing);
            && |w'.ledger| == |w.ledger| + 1
            && w'.data == d.(rows := w'.data.rows)
            && w'.data.rows ==
               if LastOf(w, w').disposition.DeadLetter? && exit.Raised? && !env.failFaults && p.itemId in d.rows
               then d.rows[p.itemId := d.rows[p.itemId].(status := Failed, failure := Some(ReasonFor(exit, n)))]
               else d.rows
  {
    var p := w.queue[|w.queue| - 1];
    var (data, exit) := RunOnce(w.data, p.itemId, env.attempt, cfg.threshold, listing);
    SettleMarks(w.(queue := w.queue[..|w.queue| - 1], data := data), p, n, exit, env, cfg);
  }

  // ---- A job that never succeeds ----

  /** As long as the rows are as given, every attempt of the run fails transiently. */
  ghost predicate NeverSucceeds(rows: Rows, id: ItemId, envs: nat -> Environment, cfg: Settings, listings: seq<seq<Entry>>) {
    forall n, d: Data :: 0 <= n < |listings| && d.rows == rows ==>
      Transiently(RunOnce(d, id, envs(n).attempt, cfg.threshold, listings[n]).1)
  }

  function Attempted(p: Payload, n: nat): Payload
    requires p.Job?
  {
    p.(attempts := Count(n))
  }

  /** A fresh job, alone in the queue, under retries that do not run out of time. */
  predicate Alone(w: World, p: Payload, cfg: Settings) {
    w.queue == [p] && p.Job? && p.attempts == Count(0) && cfg.maxAttempts >= 1 && cfg.backoff >= 0.0
  }

  /** Half way: after `n` failed attempts the job waits with that count, the rows
      are untouched, and it has paused once, twice, ..., n times the base. */
  ghost predicate HalfWay(w: World, w': World, p: Payload, cfg: Settings, n: nat)
    requires p.Job?
  {
    && w'.queue == [Attempted(p, n)] && w'.dead == w.dead && w'.data.rows == w.data.rows
    && Handlings(w'.ledger, None) == Handlings(w.ledger, None) + n
    && Slept(w'.ledger, None) == Slept(w.ledger, None) + cfg.backoff * (n * (n + 1) / 2) as real
  }

  lemma TransientKeepsRows(d: Data, id: ItemId, a: Attempt, th: int, listing: seq<Entry>)
    ensures Transiently(RunOnce(d, id, a, th, listing).1) ==> RunOnce(d, id, a, th, listing).0.rows == d.rows
  {
  }

  lemma NextTriangle(n: nat, base: real)
    ensures base * (n * (n + 1) / 2) as real + base * (n + 1) as real == base * ((n + 1) * (n + 2) / 2) as real
  {
    assert (n + 1) * (n + 2) == n * (n + 1) + 2 * (n + 1);
    assert (n + 1) * (n + 2) / 2 == n * (n + 1) / 2 + (n + 1);
    Distributes(base, n * (n + 1) / 2, n + 1);
  }

  lemma Distributes(base: real, x: int, y: int)
    ensures base * x as real + base * y as real == base * (x + y) as real
  {
  }

  lemma NonNegativePause(base: real, n: nat)
    requires base >= 0.0
    ensures base * n as real >= 0.0
  {
  }

  /** One more failed attempt with attempts left: the job goes back with one attempt
      more, after a pause of that many times the base. */
  lemma RetryTurn(v: World, q: Payload, env: Environment, cfg: Settings, listing: seq<Entry>, n: nat)
    requires v.queue == [q] && q.Job? && q.attempts == Count(n) && n + 1 < cfg.maxAttempts && Pause(n + 1, cfg) >= 0.0
    requires Transiently(RunOnce(v.data, q.itemId, env.attempt, cfg.threshold, listing).1)
    ensures var t := Turn(v, env, cfg, listing);
            && t.queue == [q.(attempts := Count(n + 1))] && t.dead == v.dead && t.data.rows == v.data.rows
            && Handlings(t.ledger, None) == Handlings(v.ledger, None) + 1
            && Slept(t.ledger, None) == Slept(v.ledger, None) + Pause(n + 1, cfg)
  {
    assert v.queue[..0] == [];
    DispositionExactly(v, env, cfg, listing, n);
    FailsExactly(v, env, cfg, listing, n);
    TransientKeepsRows(v.data, q.itemId, env.attempt, cfg.threshold, listing);
    TurnShape(v, env, cfg, listing);
    assert Pause(n + 1, cfg) == cfg.backoff * (n + 1) as real;
  }

  lemma OneMorePause(cfg: Settings, n: nat, s0: real, s: real, s': real)
    requires s == s0 + cfg.backoff * (n * (n + 1) / 2) as real && s' == s + Pause(n + 1, cfg)
    ensures s' == s0 + cfg.backoff * ((n + 1) * (n + 2) / 2) as real
  {
    NextTriangle(n, cfg.backoff);
  }

  lemma OneMoreRetry(w: World, v: World, p: Payload, env: Environment, cfg: Settings, listing: seq<Entry>, n: nat)
    requires Alone(w, p, cfg) && HalfWay(w, v, p, cfg, n) && n + 1 < cfg.maxAttempts
    requires Transiently(RunOnce(v.data, p.itemId, env.attempt, cfg.threshold, listing).1)
    ensures HalfWay(w, Turn(v, env, cfg, listing), p, cfg, n + 1)
  {
    var t := Turn(v, env, cfg, listing);
    assert Pause(n + 1, cfg) >= 0.0 by { NonNegativePause(cfg.backoff, n + 1); }
    RetryTurn(v, Attempted(p, n), env, cfg, listing, n);
    OneMorePause(cfg, n, Slept(w.ledger, None), Slept(v.ledger, None), Slept(t.ledger, None));
  }

  lemma {:induction false} RetriesGoOn(w: World, p: Payload, envs: nat -> Environment, cfg: Settings, listings: seq<seq<Entry>>)
    requires Alone(w, p, cfg) && |listings| < cfg.maxAttempts && NeverSucceeds(w.data.rows, p.itemId, envs, cfg, listings)
    ensures HalfWay(w, Turns(w, envs, cfg, listings), p, cfg, |listings|)
  {
    if listings == [] {
      assert p.(attempts := Count(0)) == p;
    } else {
      var n := |listings| - 1;
      var front := listings[..n];
      assert forall i :: 0 <= i < n ==> front[i] == listings[i];
      RetriesGoOn(w, p, envs, cfg, front);
      OneMoreRetry(w, Turns(w, envs, cfg, front), p, envs(n), cfg, listings[n], n);
    }
  }

  /** All attempts used up: buried after `max` handlings, the row failed if it can be. */
  ghost predicate UsedUp(w: World, w': World, p: Payload, env: Environment, cfg: Settings)
    requires p.Job? && cfg.maxAttempts >= 1
  {
    var max := cfg.maxAttempts;
    && w'.queue == [] && w'.dead == [Attempted(p, max - 1)] + w.dead
    && Handlings(w'.ledger, None) == Handlings(w.ledger, None) + max
    && Slept(w'.ledger, None) == Slept(w.ledger, None) + cfg.backoff * (max * (max - 1) / 2) as real
    && (env.failFaults || p.itemId !in w.data.rows ==> w'.data.rows == w.data.rows)
    && (!env.failFaults && p.itemId in w.data.rows ==> FailedAfter(w.data.rows, w'.data.rows, p.itemId, max))
  }

  ghost predicate FailedAfter(rows: Rows, rows': Rows, id: ItemId, attempts: int)
    requires id in rows
  {
    exists m :: rows' == rows[id := rows[id].(status := Failed, failure := Some(Exhausted(attempts, m)))]
  }

  lemma LastAttempt(w: World, v: World, p: Payload, env: Environment, cfg: Settings, listing: seq<Entry>)
    requires Alone(w, p, cfg) && HalfWay(w, v, p, cfg, cfg.maxAttempts - 1)
    requires Transiently(RunOnce(v.data, p.itemId, env.attempt, cfg.threshold, listing).1)
    ensures UsedUp(w, Turn(v, env, cfg, listing), p, env, cfg)
  {
    var n := cfg.maxAttempts - 1;
    var exit := RunOnce(v.data, p.itemId, env.attempt, cfg.threshold, listing).1;
    assert v.queue[..0] == [];
    DispositionExactly(v, env, cfg, listing, n);
    FailsExactly(v, env, cfg, listing, n);
    TransientKeepsRows(v.data, p.itemId, env.attempt, cfg.threshold, listing);
    TurnShape(v, env, cfg, listing);
    assert n * (n + 1) == cfg.maxAttempts * (cfg.maxAttempts - 1);
    assert ReasonFor(exit, n) == Exhausted(cfg.maxAttempts, exit.fault.message);
  }

  /** A fresh job whose attempts all fail transiently is handled exactly
      `max_attempts` times, pauses exactly base * max * (max - 1) / 2 in all, and
      ends in the dead-letter list with its row failed after that many attempts. */
  lemma ExhaustedExactly(w: World, p: Payload, envs: nat -> Environment, cfg: Settings, listings: seq<seq<Entry>>)
    requires Alone(w, p, cfg) && |listings| == cfg.maxAttempts && NeverSucceeds(w.data.rows, p.itemId, envs, cfg, listings)
    ensures UsedUp(w, Turns(w, envs, cfg, listings), p, envs(cfg.maxAttempts - 1), cfg)
  {
    var n := cfg.maxAttempts - 1;
    var front := listings[..n];
    assert forall i :: 0 <= i < n ==> front[i] == listings[i];
    RetriesGoOn(w, p, envs, cfg, front);
    LastAttempt(w, Turns(w, envs, cfg, front), p, envs(n), cfg, listings[n]);
  }

  /** For example while object storage is down. */
  lemma StorageDownExhausts(rows: Rows, id: ItemId, envs: nat -> Environment, cfg: Settings, listings: seq<seq<Entry>>)
    requires Open(rows, id)
    requires forall n :: 0 <= n < |listings| ==> envs(n).attempt.db.DbUp? && envs(n).attempt.download.Err? && envs(n).attempt.download.error.Transient?
    ensures NeverSucceeds(rows, id, envs, cfg, listings)
  {
    forall n, d: Data | 0 <= n < |listings| && d.rows == rows
      ensures Transiently(RunOnce(d, id, envs(n).attempt, cfg.threshold, listings[n]).1)
    {
      RaisesExactly(d, id, envs(n).attempt, cfg.threshold, listings[n]);
    }
  }
}
