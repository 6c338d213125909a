/** Validating credentials: raw keys against the table, bearer tokens against
    their signature, expiry and the revocation list; both through the limiter. */
module Credentials {
  import opened Common
  import opened RateLimiter
  import opened ApiKeys

  // ---- Tokens ----

  datatype Claims = Claims(tenant: TenantId, keyId: KeyId, scopes: seq<string>, plan: PlanTier, rateLimit: int)

  /** A signed token; times in whole seconds. */
  datatype Token = Token(claims: Claims, iat: int, exp: int)

  /** What a caller presents: a token the service signed, or anything else. */
  datatype Bearer = Forged | Signed(token: Token)

  function Sign(claims: Claims, now: nat, ttl: nat): Token {
    Token(claims, now / 1000, now / 1000 + ttl)
  }

  /** `jwt.decode`: signature, not before its issue, not at or after its expiry
      (section 4.1.4 of RFC 7519). */
  function Verify(b: Bearer, now: nat): Option<Claims> {
    match b
    case Forged => None
    case Signed(t) => if t.iat * 1000 <= now < t.exp * 1000 then Some(t.claims) else None
  }

  // ---- Raw keys ----

  /** `parse_full_key` succeeded with an id and a secret, or did not. */
  datatype Presented = Malformed | Presented(id: KeyId, secret: string)

  datatype AuthError =
    | MalformedKey | InvalidKey | Unusable(why: Usability) | TenantInactive
    | RateLimited(retryAfter: int) | InvalidToken | TokenRevoked

  datatype Context = Context(claims: Claims, remaining: int)

  function BucketOf(id: KeyId): string { "key:" + id }

  function Charge(counters: Counters, claims: Claims, now: nat): (Counters, Result<Context, AuthError>) {
    var (counters', d) := Hit(counters, BucketOf(claims.keyId), claims.rateLimit, now);
    (counters', if d.allowed then Ok(Context(claims, d.remaining)) else Err(RateLimited(d.retryAfter)))
  }

  function ClaimsOf(id: KeyId, key: ApiKey, tenant: Tenant): Claims {
    Claims(key.tenant, id, key.scopes, tenant.plan, key.rateLimit)
  }

  /** Everything before the rate limiter. */
  function CheckKey(keys: Keys, tenants: Tenants, digest: string -> string, p: Presented, now: nat): Result<Claims, AuthError> {
    if p.Malformed? then Err(MalformedKey)
    else if p.id !in keys || digest(p.secret) != keys[p.id].secretHash then Err(InvalidKey)
    else
      var key := keys[p.id];
      if !Usable(key, now) then Err(Unusable(UsabilityAt(key, now)))
      else if key.tenant !in tenants || !tenants[key.tenant].active then Err(TenantInactive)
      else Ok(ClaimsOf(p.id, key, tenants[key.tenant]))
  }

  function ValidateKey(keys: Keys, tenants: Tenants, digest: string -> string, counters: Counters, p: Presented, now: nat)
    : (Counters, Result<Context, AuthError>)
  {
    match CheckKey(keys, tenants, digest, p, now)
    case Err(e) => (counters, Err(e))
    case Ok(claims) => Charge(counters, claims, now)
  }

  function ValidateBearer(revoked: map<KeyId, int>, counters: Counters, b: Bearer, now: nat): (Counters, Result<Context, AuthError>) {
    match Verify(b, now)
    case None => (counters, Err(InvalidToken))
    case Some(claims) => if OnList(revoked, claims.keyId, now) then (counters, Err(TokenRevoked)) else Charge(counters, claims, now)
  }

  // ---- The classes ----

  class CredentialUseCases {
    const tenants: Tenants
    const keys: ApiKeyRepository
    const revocations: RedisRevocationList
    const limiter: RedisRateLimiter
    const digest: string -> string

    constructor (tenants: Tenants, keys: ApiKeyRepository, revocations: RedisRevocationList, limiter: RedisRateLimiter, digest: string -> string)
      ensures this.tenants == tenants && this.keys == keys && this.revocations == revocations
      ensures this.limiter == limiter && this.digest == digest
    {
      this.tenants, this.keys, this.revocations, this.limiter, this.digest := tenants, keys, revocations, limiter, digest;
    }

    method EnforceRateLimit(claims: Claims, now: nat) returns (r: Result<Context, AuthError>)
      modifies limiter
      ensures (limiter.counters, r) == Charge(old(limiter.counters), claims, now)
    {
      var decision := limiter.HitBucket(BucketOf(claims.keyId), claims.rateLimit, now);
      if !decision.allowed {
        return Err(RateLimited(decision.retryAfter));
      }
      r := Ok(Context(claims, decision.remaining));
    }

    /** `ValidateApiKeyCredential` */
    method ValidateRawKey(p: Presented, now: nat) returns (r: Result<Context, AuthError>)
      modifies limiter
      ensures (limiter.counters, r) == ValidateKey(keys.rows, tenants, digest, old(limiter.counters), p, now)
    {
      if p.Malformed? {
        return Err(MalformedKey);
      }
      if p.id !in keys.rows || digest(p.secret) != keys.rows[p.id].secretHash {
        return Err(InvalidKey);
      }
      var key := keys.rows[p.id];
      var usability := UsabilityAt(key, now);
      if !usability.UsableKey? {
        return Err(Unusable(usability));
      }
      if key.tenant !in tenants || !tenants[key.tenant].active {
        return Err(TenantInactive);
      }
      r := EnforceRateLimit(ClaimsOf(p.id, key, tenants[key.tenant]), now);
    }

    /** `ValidateAccessTokenCredential` */
    method ValidateToken(b: Bearer, now: nat) returns (r: Result<Context, AuthError>)
      modifies limiter
      ensures (limiter.counters, r) == ValidateBearer(revocations.entries, old(limiter.counters), b, now)
    {
      var claims := Verify(b, now);
      if claims.None? {
        return Err(InvalidToken);
      }
      var revoked := revocations.IsRevoked(claims.value.keyId, now);
      if revoked {
        return Err(TokenRevoked);
      }
      r := EnforceRateLimit(claims.value, now);
    }

    /** `IssueAccessToken`: validation at one moment, signing at a later one. */
    method IssueAccessToken(p: Presented, now: nat, signedAt: nat, ttl: nat) returns (r: Result<Token, AuthError>)
      modifies limiter
      ensures limiter.counters == ValidateKey(keys.rows, tenants, digest, old(limiter.counters), p, now).0
      ensures match ValidateKey(keys.rows, tenants, digest, old(limiter.counters), p, now).1
              case Err(e) => r == Err(e)
              case Ok(context) => r == Ok(Sign(context.claims, signedAt, ttl))
    {
      var context := ValidateRawKey(p, now);
      if context.Err? {
        return Err(context.error);
      }
      r := Ok(Sign(context.value.claims, signedAt, ttl));
    }
  }
}
