/** API keys: what makes one usable, and issuing, rotating and revoking them.
    Times are in milliseconds. */
module ApiKeys {
  import opened Common

  type KeyId = string

  datatype PlanTier = Free | Standard | Enterprise
  datatype Tenant = Tenant(active: bool, plan: PlanTier)
  type Tenants = map<TenantId, Tenant>

  function DefaultRateLimit(plan: PlanTier): int {
    match plan case Free => 60 case Standard => 600 case Enterprise => 3000
  }

  datatype KeyStatus = Active | Grace | Revoked

  datatype ApiKey = ApiKey(tenant: TenantId, name: string, secretHash: string, scopes: seq<string>, status: KeyStatus,
                           rateLimit: int, createdAt: int, expiresAt: Option<int>, graceExpiresAt: Option<int>,
                           revokedAt: Option<int>, rotatedFrom: Option<KeyId>)

  type Keys = map<KeyId, ApiKey>

  datatype Usability = UsableKey | KeyRevoked | GraceEnded | KeyExpired

  /** `ApiKey.usability_at` */
  function UsabilityAt(key: ApiKey, now: int): Usability {
    if key.status.Revoked? then KeyRevoked
    else if key.status.Grace? && (key.graceExpiresAt.None? || now >= key.graceExpiresAt.value) then GraceEnded
    else if key.expiresAt.Some? && now >= key.expiresAt.value then KeyExpired
    else UsableKey
  }

  predicate Usable(key: ApiKey, now: int) { UsabilityAt(key, now).UsableKey? }

  datatype KeyError = TenantNotFound | UnknownScopes | NoScopes | RateLimitTooLow | KeyNotFound | NotActive

  const KNOWN_SCOPES: set<string> := {"catalog:read", "catalog:write", "search:query"}
  const DEFAULT_SCOPES: seq<string> := ["catalog:read", "catalog:write", "search:query"]
  const DAY_MS := 86_400_000

  /** `tuple(dict.fromkeys(scopes))` */
  function Distinct(s: seq<string>): seq<string> {
    if s == [] then []
    else
      var front := Distinct(s[..|s| - 1]);
      if s[|s| - 1] in front then front else front + [s[|s| - 1]]
  }

  function ValidateScopes(scopes: seq<string>): Result<seq<string>, KeyError> {
    if exists i :: 0 <= i < |scopes| && scopes[i] !in KNOWN_SCOPES then Err(UnknownScopes)
    else if scopes == [] then Err(NoScopes)
    else Ok(Distinct(scopes))
  }

  /** Where `x` occurs first; the length if it does not. */
  function First(s: seq<string>, x: string): (i: nat)
    ensures i <= |s| && (x in s <==> i < |s|)
    ensures i < |s| ==> s[i] == x
    ensures forall j :: 0 <= j < i ==> s[j] != x
  {
    if s == [] || s[0] == x then 0 else 1 + First(s[1..], x)
  }

  lemma FirstOfLonger(s: seq<string>, y: string, x: string)
    ensures x in s ==> First(s + [y], x) == First(s, x)
    ensures x !in s && x == y ==> First(s + [y], x) == |s|
  {
    var t := s + [y];
    assert forall j :: 0 <= j < |s| ==> t[j] == s[j];
    assert t[|s|] == y;
    if x in s {
      FirstIs(t, x, First(s, x));
    } else if x == y {
      FirstIs(t, x, |s|);
    }
  }

  lemma FirstIs(s: seq<string>, x: string, i: nat)
    requires i < |s| && s[i] == x && forall j :: 0 <= j < i ==> s[j] != x
    ensures First(s, x) == i
  {
  }

  /** De-duplication keeps exactly the given scopes, each once, in the order in
      which they first occur. */
  lemma {:induction false} DistinctMeaning(s: seq<string>)
    ensures forall x :: x in Distinct(s) <==> x in s
    ensures forall i, j :: 0 <= i < j < |Distinct(s)| ==> Distinct(s)[i] != Distinct(s)[j]
    ensures forall i, j :: 0 <= i < j < |Distinct(s)| ==> First(s, Distinct(s)[i]) < First(s, Distinct(s)[j])
  {
    if s != [] {
      var front, y := s[..|s| - 1], s[|s| - 1];
      DistinctMeaning(front);
      assert s == front + [y];
      forall i, j | 0 <= i < j < |Distinct(s)| ensures First(s, Distinct(s)[i]) < First(s, Distinct(s)[j]) {
        FirstOfLonger(front, y, Distinct(s)[i]);
        FirstOfLonger(front, y, Distinct(s)[j]);
        assert Distinct(s)[i] in front;
      }
    }
  }

  // ---- The three operations on the key table ----

  datatype IssueInput = IssueInput(tenant: TenantId, name: string, scopes: seq<string>, rateLimit: Option<int>, expiresInDays: Option<int>)

  function Issue(keys: Keys, tenants: Tenants, id: KeyId, secretHash: string, input: IssueInput, now: int): Result<Keys, KeyError> {
    if input.tenant !in tenants then Err(TenantNotFound)
    else match ValidateScopes(if input.scopes != [] then input.scopes else DEFAULT_SCOPES)
      case Err(e) => Err(e)
      case Ok(scopes) =>
        var limit := if input.rateLimit.Some? then input.rateLimit.value else DefaultRateLimit(tenants[input.tenant].plan);
        if limit < 1 then Err(RateLimitTooLow)
        else Ok(keys[id := ApiKey(input.tenant, input.name, secretHash, scopes, Active, limit, now,
                                  if input.expiresInDays.Some? then Some(now + input.expiresInDays.value * DAY_MS) else None,
                                  None, None, None)])
  }

  /** The old key enters its grace period, the replacement inherits everything
      but id, secret and birth. */
  function Rotate(keys: Keys, id: KeyId, newId: KeyId, newHash: string, now: int, graceMs: int): Result<Keys, KeyError> {
    if id !in keys then Err(KeyNotFound)
    else if !keys[id].status.Active? then Err(NotActive)
    else
      var previous := keys[id];
      var replacement := ApiKey(previous.tenant, previous.name, newHash, previous.scopes, Active, previous.rateLimit, now,
                                previous.expiresAt, None, None, Some(id));
      Ok(keys[id := previous.(status := Grace, graceExpiresAt := Some(now + graceMs))][newId := replacement])
  }

  function Revoke(keys: Keys, id: KeyId, now: int): Result<Keys, KeyError> {
    if id !in keys then Err(KeyNotFound)
    else Ok(keys[id := keys[id].(status := Revoked, revokedAt := Some(now))])
  }

  // ---- The classes ----

  class ApiKeyRepository {
    var rows: Keys

    constructor ()
      ensures rows == map[]
    {
      rows := map[];
    }

    method Add(id: KeyId, key: ApiKey)
      modifies this
      ensures rows == old(rows)[id := key]
    {
      rows := rows[id := key];
    }

    method Update(id: KeyId, key: ApiKey)
      modifies this
      ensures rows == old(rows)[id := key]
    {
      rows := rows[id := key];
    }
  }

  /** `RedisRevocationList` while Redis answers: entries live for the token
      lifetime plus a minute. */
  class RedisRevocationList {
    const tokenTtl: nat
    var entries: map<KeyId, int>

    constructor (tokenTtlSeconds: nat)
      ensures tokenTtl == tokenTtlSeconds && entries == map[]
    {
      tokenTtl, entries := tokenTtlSeconds, map[];
    }

    method Revoke(id: KeyId, now: int)
      modifies this
      ensures entries == Listed(old(entries), id, now, tokenTtl)
    {
      var entryTtl := tokenTtl + 60;
      entries := entries[id := now + entryTtl * 1000];
    }

    method IsRevoked(id: KeyId, now: int) returns (b: bool)
      ensures b == OnList(entries, id, now)
    {
      b := id in entries && now < entries[id];
    }
  }

  function Listed(entries: map<KeyId, int>, id: KeyId, now: int, tokenTtl: nat): map<KeyId, int> {
    entries[id := now + (tokenTtl + 60) * 1000]
  }

  predicate OnList(entries: map<KeyId, int>, id: KeyId, now: int) { id in entries && now < entries[id] }

  class ApiKeyUseCases {
    const tenants: Tenants
    const keys: ApiKeyRepository
    const revocations: RedisRevocationList
    const graceMs: int

    constructor (tenants: Tenants, keys: ApiKeyRepository, revocations: RedisRevocationList, graceMs: int)
      ensures this.tenants == tenants && this.keys == keys && this.revocations == revocations && this.graceMs == graceMs
    {
      this.tenants, this.keys, this.revocations, this.graceMs := tenants, keys, revocations, graceMs;
    }

    /** `IssueApiKey`; the id and the secret come from the operating system. */
    method IssueKey(id: KeyId, secretHash: string, input: IssueInput, now: int) returns (r: Result<ApiKey, KeyError>)
      modifies keys
      ensures Issue(old(keys.rows), tenants, id, secretHash, input, now) == (if r.Ok? then Ok(keys.rows) else Err(r.error))
      ensures r.Ok? ==> id in keys.rows && r.value == keys.rows[id]
      ensures r.Err? ==> keys.rows == old(keys.rows)
    {
      if input.tenant !in tenants {
        return Err(TenantNotFound);
      }
      var scopes := ValidateScopes(if input.scopes != [] then input.scopes else DEFAULT_SCOPES);
      if scopes.Err? {
        return Err(scopes.error);
      }
      var limit := DefaultRateLimit(tenants[input.tenant].plan);
      if input.rateLimit.Some? {
        limit := input.rateLimit.value;
      }
      if limit < 1 {
        return Err(RateLimitTooLow);
      }
      var expiresAt: Option<int> := None;
      if input.expiresInDays.Some? {
        expiresAt := Some(now + input.expiresInDays.value * DAY_MS);
      }
      var key := ApiKey(input.tenant, input.name, secretHash, scopes.value, Active, limit, now, expiresAt, None, None, None);
      keys.Add(id, key);
      r := Ok(key);
    }

    method RotateKey(id: KeyId, newId: KeyId, newHash: string, now: int) returns (r: Result<ApiKey, KeyError>)
      modifies keys
      ensures Rotate(old(keys.rows), id, newId, newHash, now, graceMs) == (if r.Ok? then Ok(keys.rows) else Err(r.error))
      ensures r.Ok? ==> newId in keys.rows && r.value == keys.rows[newId]
      ensures r.Err? ==> keys.rows == old(keys.rows)
    {
      if id !in keys.rows {
        return Err(KeyNotFound);
      }
      var previous := keys.rows[id];
      if !previous.status.Active? {
        return Err(NotActive);
      }
      previous := previous.(status := Grace);
      previous := previous.(graceExpiresAt := Some(now + graceMs));
      keys.Update(id, previous);
      var replacement := ApiKey(previous.tenant, previous.name, newHash, previous.scopes, Active, previous.rateLimit, now, previous.expiresAt, None, None, Some(id));
      keys.Add(newId, replacement);
      r := Ok(replacement);
    }

    method RevokeKey(id: KeyId, now: int) returns (r: Result<ApiKey, KeyError>)
      modifies keys, revocations
      ensures Revoke(old(keys.rows), id, now) == (if r.Ok? then Ok(keys.rows) else Err(r.error))
      ensures r.Ok? ==> id in keys.rows && r.value == keys.rows[id]
      ensures r.Ok? ==> revocations.entries == Listed(old(revocations.entries), id, now, revocations.tokenTtl)
      ensures r.Err? ==> keys.rows == old(keys.rows) && revocations.entries == old(revocations.entries)
    {
      if id !in keys.rows {
        return Err(KeyNotFound);
      }
      var key := keys.rows[id];
      key := key.(status := Revoked);
      key := key.(revokedAt := Some(now));
      keys.Update(id, key);
      revocations.Revoke(id, now);
      r := Ok(key);
    }
  }
}
