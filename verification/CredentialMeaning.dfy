/** What the credential operations mean, in the fields of keys, tenants and tokens:
    who is let in and with which error everybody else is turned away. */
module CredentialMeaning {
  import opened Common
  import opened RateLimiter
  import opened ApiKeys
  import opened Credentials
  import opened CredentialRuns

  // ---- Keys ----

  /** Not revoked, within its grace if it has been rotated, and not expired. */
  predicate Lives(key: ApiKey, now: int) {
    && key.status != Revoked
    && (key.status == Grace ==> key.graceExpiresAt.Some? && now < key.graceExpiresAt.value)
    && (key.expiresAt.Some? ==> now < key.expiresAt.value)
  }

  /** A key is usable exactly while it lives, and otherwise says why not. */
  lemma UsableExactly(key: ApiKey, now: int)
    ensures Usable(key, now) <==> Lives(key, now)
    ensures UsabilityAt(key, now) == KeyRevoked <==> key.status == Revoked
    ensures UsabilityAt(key, now) == GraceEnded <==>
              key.status == Grace && (key.graceExpiresAt.Some? ==> key.graceExpiresAt.value <= now)
    ensures UsabilityAt(key, now) == KeyExpired <==>
              !Lives(key, now) && Lives(key.(expiresAt := None), now)
  {
  }

  /** The limit of a new key: as requested, or that of the tenant's plan. */
  function LimitFor(input: IssueInput, plan: PlanTier): int {
    match input.rateLimit
    case Some(n) => n
    case None => (match plan case Free => 60 case Standard => 600 case Enterprise => 3000)
  }

  function ScopesFor(input: IssueInput): seq<string> {
    if input.scopes == [] then ["catalog:read", "catalog:write", "search:query"] else input.scopes
  }

  predicate KnownScope(s: string) { s == "catalog:read" || s == "catalog:write" || s == "search:query" }

  ghost predicate OnlyKnown(scopes: seq<string>) { forall s :: s in scopes ==> KnownScope(s) }

  lemma ScopesExactly(scopes: seq<string>)
    ensures ValidateScopes(scopes).Ok? <==> scopes != [] && OnlyKnown(scopes)
    ensures ValidateScopes(scopes) == Err(UnknownScopes) <==> !OnlyKnown(scopes)
    ensures ValidateScopes(scopes).Ok? ==> forall s :: s in ValidateScopes(scopes).value <==> s in scopes
  {
    DistinctMeaning(scopes);
    if i :| 0 <= i < |scopes| && scopes[i] !in KNOWN_SCOPES {
      assert scopes[i] in scopes && !KnownScope(scopes[i]);
    }
  }

  /** Exactly when a key is issued, with which error it is not, and every field of
      the new key. */
  lemma IssueExactly(keys: Keys, tenants: Tenants, id: KeyId, hash: string, input: IssueInput, now: int)
    ensures var r := Issue(keys, tenants, id, hash, input, now);
            && (r == Err(TenantNotFound) <==> input.tenant !in tenants)
            && (r == Err(UnknownScopes) <==> input.tenant in tenants && !OnlyKnown(input.scopes))
            && (r == Err(RateLimitTooLow) <==>
                  input.tenant in tenants && OnlyKnown(input.scopes) && LimitFor(input, tenants[input.tenant].plan) < 1)
            && (r.Ok? <==> input.tenant in tenants && OnlyKnown(input.scopes) && LimitFor(input, tenants[input.tenant].plan) >= 1)
            && (r.Ok? ==>
                  && id in r.value && (forall k :: k in r.value && k != id ==> k in keys && r.value[k] == keys[k])
                  && (forall k :: k in keys ==> k in r.value)
                  && (forall s :: s in r.value[id].scopes <==> s in ScopesFor(input))
                  && r.value[id] == ApiKey(input.tenant, input.name, hash, r.value[id].scopes, Active, LimitFor(input, tenants[input.tenant].plan),
                                           now, r.value[id].expiresAt, None, None, None)
                  && (input.expiresInDays.None? ==> r.value[id].expiresAt.None?)
                  && (input.expiresInDays.Some? ==> r.value[id].expiresAt == Some(now + input.expiresInDays.value * 24 * 60 * 60 * 1000)))
  {
    ScopesExactly(ScopesFor(input));
    assert OnlyKnown(ScopesFor(input)) <==> OnlyKnown(input.scopes) by {
      if input.scopes == [] {
        var all := ScopesFor(input);
        forall s | s in all ensures KnownScope(s) { assert s == all[0] || s == all[1] || s == all[2]; }
      }
    }
    if input.expiresInDays.Some? {
      assert input.expiresInDays.value * DAY_MS == input.expiresInDays.value * 24 * 60 * 60 * 1000;
    }
  }

  /** Exactly an active key rotates. The replacement differs in id, secret, birth
      and parent only; the old key lives for the grace period and no longer. */
  lemma RotateExactly(keys: Keys, id: KeyId, newId: KeyId, newHash: string, now: int, graceMs: int)
    requires newId !in keys
    ensures var r := Rotate(keys, id, newId, newHash, now, graceMs);
            && (r == Err(KeyNotFound) <==> id !in keys)
            && (r.Ok? <==> id in keys && keys[id].status == Active)
            && (r.Ok? ==>
                  && r.value.Keys == keys.Keys + {newId}
                  && (forall k :: k in keys && k != id ==> r.value[k] == keys[k])
                  && r.value[id] == keys[id].(status := Grace, graceExpiresAt := Some(now + graceMs))
                  && (forall t :: Lives(r.value[id], t) <==> t < now + graceMs && Lives(keys[id], t))
                  && r.value[newId] == ApiKey(keys[id].tenant, keys[id].name, newHash, keys[id].scopes, Active, keys[id].rateLimit,
                                              now, keys[id].expiresAt, None, None, Some(id)))
  {
  }

  lemma RevokeExactly(keys: Keys, id: KeyId, now: int)
    ensures var r := Revoke(keys, id, now);
            && (r.Ok? <==> id in keys)
            && (r.Ok? ==> r.value == keys[id := keys[id].(status := Revoked, revokedAt := Some(now))])
  {
  }

  // ---- Raw keys ----

  /** The presented secret is the key's own. */
  predicate Authentic(keys: Keys, digest: string -> string, p: Presented) {
    p.Presented? && p.id in keys && digest(p.secret) == keys[p.id].secretHash
  }

  /** Authentic, living, and of an active tenant. */
  predicate Genuine(keys: Keys, tenants: Tenants, digest: string -> string, p: Presented, now: int) {
    && Authentic(keys, digest, p) && Lives(keys[p.id], now)
    && keys[p.id].tenant in tenants && tenants[keys[p.id].tenant].active
  }

  /** A raw key gets to the limiter exactly if it is genuine, and then into its own
      key's bucket under its own limit; success carries the key's own tenant,
      scopes and limit. */
  lemma RawKeyExactly(keys: Keys, tenants: Tenants, digest: string -> string, counters: Counters, p: Presented, now: nat)
    ensures var (counters', r) := ValidateKey(keys, tenants, digest, counters, p, now);
            && (r.Ok? || r.error.RateLimited? <==> Genuine(keys, tenants, digest, p, now))
            && (!Genuine(keys, tenants, digest, p, now) ==> counters' == counters)
            && (Genuine(keys, tenants, digest, p, now) ==>
                  var key := keys[p.id];
                  var (hit, d) := Hit(counters, "key:" + p.id, key.rateLimit, now);
                  && counters' == hit
                  && r == if d.allowed then Ok(Context(Claims(key.tenant, p.id, key.scopes, tenants[key.tenant].plan, key.rateLimit), d.remaining))
                          else Err(RateLimited(d.retryAfter)))
  {
    if p.Presented? && p.id in keys { UsableExactly(keys[p.id], now); }
  }

  /** The error of everybody else. */
  lemma RawKeyErrors(keys: Keys, tenants: Tenants, digest: string -> string, counters: Counters, p: Presented, now: nat)
    ensures var r := ValidateKey(keys, tenants, digest, counters, p, now).1;
            && (r == Err(MalformedKey) <==> p == Malformed)
            && (r == Err(InvalidKey) <==> p.Presented? && !Authentic(keys, digest, p))
            && (Authentic(keys, digest, p) ==>
                  var key := keys[p.id];
                  && (r == Err(Unusable(KeyRevoked)) <==> key.status == Revoked)
                  && (r == Err(Unusable(GraceEnded)) <==> key.status == Grace && (key.graceExpiresAt.Some? ==> key.graceExpiresAt.value <= now))
                  && (r == Err(Unusable(KeyExpired)) <==> !Lives(key, now) && Lives(key.(expiresAt := None), now))
                  && (r == Err(TenantInactive) <==> Lives(key, now) && !(key.tenant in tenants && tenants[key.tenant].active)))
  {
    if p.Presented? && p.id in keys { UsableExactly(keys[p.id], now); }
  }

  // ---- Bearer tokens ----

  /** Signed by the service, within its times, and its key not on the list. */
  predicate GenuineBearer(revoked: map<KeyId, int>, b: Bearer, now: int) {
    && b.Signed? && b.token.iat * 1000 <= now < b.token.exp * 1000
    && !(b.token.claims.keyId in revoked && now < revoked[b.token.claims.keyId])
  }

  lemma BearerExactly(revoked: map<KeyId, int>, counters: Counters, b: Bearer, now: nat)
    ensures var (counters', r) := ValidateBearer(revoked, counters, b, now);
            && (r.Ok? || r.error.RateLimited? <==> GenuineBearer(revoked, b, now))
            && (r == Err(InvalidToken) <==> (b.Signed? ==> now < b.token.iat * 1000 || b.token.exp * 1000 <= now))
            && (!GenuineBearer(revoked, b, now) ==> counters' == counters && (r == Err(InvalidToken) || r == Err(TokenRevoked)))
            && (GenuineBearer(revoked, b, now) ==>
                  var c := b.token.claims;
                  var (hit, d) := Hit(counters, "key:" + c.keyId, c.rateLimit, now);
                  && counters' == hit
                  && r == if d.allowed then Ok(Context(c, d.remaining)) else Err(RateLimited(d.retryAfter)))
  {
  }

  /** A token signed at `m` carries its claims and is valid from the start of that
      second for exactly `ttl` seconds. */
  lemma SignedLives(claims: Claims, m: nat, ttl: nat, now: nat)
    ensures Sign(claims, m, ttl).claims == claims
    ensures Verify(Signed(Sign(claims, m, ttl)), now) == (if m / 1000 * 1000 <= now < m / 1000 * 1000 + ttl * 1000 then Some(claims) else None)
  {
  }

  /** An entry lasts the token lifetime and a minute; other entries stay. */
  lemma ListedLives(entries: map<KeyId, int>, id: KeyId, at: int, ttl: nat, other: KeyId, now: int)
    ensures OnList(Listed(entries, id, at, ttl), other, now)
            <==> if other == id then now < at + ttl * 1000 + 60 * 1000 else other in entries && now < entries[other]
  {
  }

  // ---- Over runs ----

  /** The event brings key `k` into the table with this secret hash. */
  ghost predicate Creates(cfg: Config, s: State, e: Event, k: KeyId, hash: string) {
    && k !in s.keys && k in Next(cfg, s, e).keys
    && ((e.step.IssueKey? && e.step.id == k && e.step.secretHash == hash)
        || (e.step.RotateKey? && e.step.newId == k && e.step.newHash == hash))
  }

  lemma IssueCreates(s: State, at: nat, id: KeyId, hash: string, input: IssueInput, k: KeyId)
    requires k !in s.keys && k in AfterIssue(s, at, id, hash, input).keys
    ensures k == id && AfterIssue(s, at, id, hash, input).keys[k].secretHash == hash
  {
  }

  lemma RotateCreates(cfg: Config, s: State, at: nat, id: KeyId, newId: KeyId, newHash: string, k: KeyId)
    requires k !in s.keys && k in AfterRotate(cfg, s, at, id, newId, newHash).keys
    ensures k == newId && AfterRotate(cfg, s, at, id, newId, newHash).keys[k].secretHash == newHash
  {
  }

  lemma CommitCreatesNone(s: State, at: nat, id: KeyId)
    ensures AfterCommit(s, at, id).keys.Keys == s.keys.Keys
  {
  }

  lemma OthersCreateNone(cfg: Config, s: State, e: Event)
    requires !e.step.IssueKey? && !e.step.RotateKey?
    ensures Next(cfg, s, e).keys.Keys == s.keys.Keys
  {
    if e.step.CommitRevoked? { CommitCreatesNone(s, e.at, e.step.id); }
  }

  lemma NewKeyIsCreated(cfg: Config, s: State, e: Event, k: KeyId)
    requires k !in s.keys && k in Next(cfg, s, e).keys
    ensures Creates(cfg, s, e, k, Next(cfg, s, e).keys[k].secretHash)
  {
    if e.step.IssueKey? {
      assert Next(cfg, s, e) == AfterIssue(s, e.at, e.step.id, e.step.secretHash, e.step.input);
      IssueCreates(s, e.at, e.step.id, e.step.secretHash, e.step.input, k);
    } else if e.step.RotateKey? {
      assert Next(cfg, s, e) == AfterRotate(cfg, s, e.at, e.step.id, e.step.newId, e.step.newHash);
      RotateCreates(cfg, s, e.at, e.step.id, e.step.newId, e.step.newHash, k);
    } else {
      OthersCreateNone(cfg, s, e);
    }
  }

  /** Every key of a run was issued or rotated in with the hash it still has. */
  lemma {:induction false} CreatedWithItsHash(cfg: Config, events: seq<Event>, lim: Limits, k: KeyId) returns (i: nat)
    requires LegalRun(cfg, events, lim) && k in Run(cfg, events).keys
    ensures i < |events| && Creates(cfg, Run(cfg, events[..i]), events[i], k, Run(cfg, events).keys[k].secretHash)
    decreases |events|
  {
    var front, e := events[..|events| - 1], events[|events| - 1];
    var s := Run(cfg, front);
    if k in s.keys {
      KeysMove(cfg, s, e, lim);
      i := CreatedWithItsHash(cfg, front, lim, k);
      assert front[..i] == events[..i];
    } else {
      NewKeyIsCreated(cfg, s, e, k);
      i := |front|;
    }
  }

  /** Whoever validates with a raw key, directly or for an exchange, presents a
      secret whose digest is the one the key was issued or rotated in with. */
  lemma OnlyTheSecretOpens(cfg: Config, events: seq<Event>, lim: Limits, k: KeyId) returns (i: nat)
    requires events != [] && LegalRun(cfg, events, lim)
    requires var e := events[|events| - 1];
             (e.step.CheckRaw? || e.step.BeginExchange?) && Admits(cfg, Run(cfg, events[..|events| - 1]), e, k)
    ensures var p := events[|events| - 1].step.p;
            && p.Presented? && p.id == k
            && i < |events| - 1 && Creates(cfg, Run(cfg, events[..i]), events[i], k, cfg.digest(p.secret))
  {
    var front, e := events[..|events| - 1], events[|events| - 1];
    var s := Run(cfg, front);
    RawKeyExactly(s.keys, s.tenants, cfg.digest, s.counters, e.step.p, e.at);
    i := CreatedWithItsHash(cfg, front, lim, k);
    assert front[..i] == events[..i];
  }

  /** The token lag in terms of the key's fields: once it has expired, run out of
      grace or been revoked at `d`, its tokens end by `d + gap + ttl`. */
  lemma TokensEndWithTheirKey(cfg: Config, events: seq<Event>, lim: Limits, i: nat, j: nat, k: KeyId, d: nat)
    requires LegalRun(cfg, events, lim) && i <= j < |events|
    requires Run(cfg, events[..i]).now <= d && k in Run(cfg, events[..i]).keys && !Lives(Run(cfg, events[..i]).keys[k], d)
    requires forall n :: i <= n < |events| ==> d <= events[n].at
    requires events[j].at >= d + lim.gap + cfg.ttl * 1000 && events[j].step.CheckBearer?
    ensures !Admits(cfg, Run(cfg, events[..j]), events[j], k)
  {
    UsableExactly(Run(cfg, events[..i]).keys[k], d);
    TokenLagBound(cfg, events, lim, i, j, k, d);
  }

  /** And a key that does not live now never lives again. */
  lemma DeadStaysDead(cfg: Config, events: seq<Event>, lim: Limits, i: nat, k: KeyId, t: int, u: int)
    requires LegalRun(cfg, events, lim) && i <= |events| && t <= u
    requires k in Run(cfg, events[..i]).keys && !Lives(Run(cfg, events[..i]).keys[k], t)
    ensures k in Run(cfg, events).keys && !Lives(Run(cfg, events).keys[k], u)
  {
    UsableExactly(Run(cfg, events[..i]).keys[k], t);
    UnusableForever(cfg, events, lim, i, k, t, u);
    UsableExactly(Run(cfg, events).keys[k], u);
  }
}
