/** Credentials over time: every run of issuing, rotating, revoking, validating
    and exchanging, with a clock that does not go back. An exchange validates the
    key in one event and signs the token in a later one. */
module CredentialRuns {
  import opened Common
  import opened RateLimiter
  import opened ApiKeys
  import opened Credentials

  /** The longest times, in milliseconds, between validating and signing in an
      exchange, and between listing a revocation and committing it. */
  datatype Limits = Limits(gap: nat, commit: nat)

  datatype Config = Config(ttl: nat, graceMs: int, digest: string -> string)

  /** An exchange whose key was accepted and whose token is not signed yet. */
  datatype Exchange = Exchange(claims: Claims, begun: nat)

  /** `revoking` holds when each key was last put on the revocation list, whether or
      not the row has been committed since. `created` lists key ids in order of
      creation; `issued` holds every token ever signed; `hits` every call of the
      limiter. These are history. */
  datatype State = State(keys: Keys, created: seq<KeyId>, tenants: Tenants, revoked: map<KeyId, int>, revoking: map<KeyId, nat>, counters: Counters,
                         pending: map<nat, Exchange>, issued: set<Token>, hits: seq<HitEvent>, now: nat)

  datatype Step =
    | IssueKey(id: KeyId, secretHash: string, input: IssueInput)
    | RotateKey(id: KeyId, newId: KeyId, newHash: string)
    | ListRevoked(id: KeyId)
    | CommitRevoked(id: KeyId)
    | SetTenant(tenantId: TenantId, tenant: Tenant)
    | CheckRaw(p: Presented)
    | BeginExchange(x: nat, p: Presented)
    | FinishExchange(x: nat)
    | CheckBearer(b: Bearer)

  datatype Event = Event(at: nat, step: Step)

  const INITIAL := State(map[], [], map[], map[], map[], map[], map[], {}, [], 0)

  // ---- Transitions ----

  /** The answer to a validating step. */
  function Answer(cfg: Config, s: State, e: Event): (Counters, Result<Context, AuthError>)
    requires e.step.CheckRaw? || e.step.BeginExchange? || e.step.CheckBearer?
  {
    if e.step.CheckBearer? then ValidateBearer(s.revoked, s.counters, e.step.b, e.at)
    else ValidateKey(s.keys, s.tenants, cfg.digest, s.counters, e.step.p, e.at)
  }

  predicate Validates(step: Step) { step.CheckRaw? || step.BeginExchange? || step.CheckBearer? }

  /** The claims a validating step brings to the limiter, if it gets that far. */
  function Charged(cfg: Config, s: State, e: Event): Option<Claims> {
    if e.step.CheckBearer? then
      match Verify(e.step.b, e.at)
      case Some(c) => if OnList(s.revoked, c.keyId, e.at) then None else Some(c)
      case None => None
    else if e.step.CheckRaw? || e.step.BeginExchange? then
      match CheckKey(s.keys, s.tenants, cfg.digest, e.step.p, e.at)
      case Ok(c) => Some(c)
      case Err(_) => None
    else None
  }

  function Next(cfg: Config, s: State, e: Event): State {
    if Validates(e.step) then AfterValidation(cfg, s, e)
    else if e.step.FinishExchange? then AfterSigning(cfg, s, e)
    else AfterKeyStep(cfg, s, e)
  }

  function AfterValidation(cfg: Config, s: State, e: Event): State
    requires Validates(e.step)
  {
    var (counters, r) := Answer(cfg, s, e);
    var charged := Charged(cfg, s, e);
    s.(now := e.at, counters := counters,
       hits := if charged.Some? then s.hits + [HitFor(charged.value, e.at)] else s.hits,
       pending := if e.step.BeginExchange? && r.Ok? then s.pending[e.step.x := Exchange(r.value.claims, e.at)] else s.pending)
  }

  function AfterSigning(cfg: Config, s: State, e: Event): State
    requires e.step.FinishExchange?
  {
    var x := e.step.x;
    if x in s.pending then
      s.(now := e.at, pending := s.pending - {x}, issued := s.issued + {Sign(s.pending[x].claims, e.at, cfg.ttl)})
    else s.(now := e.at)
  }

  /** Key administration touches neither tokens nor the limiter. */
  predicate LeavesTokens(s: State, at: nat, t: State) {
    t.issued == s.issued && t.pending == s.pending && t.counters == s.counters && t.hits == s.hits && t.now == at
  }

  function AfterKeyStep(cfg: Config, s: State, e: Event): (t: State)
    requires !Validates(e.step) && !e.step.FinishExchange?
    ensures LeavesTokens(s, e.at, t)
  {
    match e.step
    case IssueKey(id, hash, input) => AfterIssue(s, e.at, id, hash, input)
    case RotateKey(id, newId, newHash) => AfterRotate(cfg, s, e.at, id, newId, newHash)
    case ListRevoked(id) => AfterListing(cfg, s, e.at, id)
    case CommitRevoked(id) => AfterCommit(s, e.at, id)
    case SetTenant(id, tenant) => s.(now := e.at, tenants := s.tenants[id := tenant])
  }

  function AfterIssue(s: State, at: nat, id: KeyId, hash: string, input: IssueInput): (t: State)
    ensures LeavesTokens(s, at, t)
  {
    match Issue(s.keys, s.tenants, id, hash, input, at)
    case Ok(keys) => s.(now := at, keys := keys, created := s.created + [id])
    case Err(_) => s.(now := at)
  }

  function AfterRotate(cfg: Config, s: State, at: nat, id: KeyId, newId: KeyId, newHash: string): (t: State)
    ensures LeavesTokens(s, at, t)
  {
    match Rotate(s.keys, id, newId, newHash, at, cfg.graceMs)
    case Ok(keys) => s.(now := at, keys := keys, created := s.created + [newId])
    case Err(_) => s.(now := at)
  }

  /** `RevokeApiKey` up to its list entry; the row is still to be committed. */
  function AfterListing(cfg: Config, s: State, at: nat, id: KeyId): (t: State)
    ensures LeavesTokens(s, at, t)
  {
    if id in s.keys then s.(now := at, revoked := Listed(s.revoked, id, at, cfg.ttl), revoking := s.revoking[id := at])
    else s.(now := at)
  }

  function AfterCommit(s: State, at: nat, id: KeyId): (t: State)
    ensures LeavesTokens(s, at, t)
  {
    if id !in s.revoking then s.(now := at)
    else
      match Revoke(s.keys, id, s.revoking[id])
      case Ok(keys) => s.(now := at, keys := keys)
      case Err(_) => s.(now := at)
  }

  function HitFor(c: Claims, at: nat): HitEvent { HitEvent(at, BucketOf(c.keyId), c.rateLimit) }

  /** The event validates a credential of key `k` successfully. */
  predicate Admits(cfg: Config, s: State, e: Event, k: KeyId) {
    Validates(e.step) && Answer(cfg, s, e).1.Ok? && Answer(cfg, s, e).1.value.claims.keyId == k
  }

  /** The event commits a revocation of `k` that was put on the list before. */
  predicate Revokes(s: State, e: Event, k: KeyId) {
    e.step == CommitRevoked(k) && k in s.revoking && k in s.keys
  }

  /** The clock does not go back, new ids are fresh, signed tokens come from the
      service, and exchanges and revocations finish within their limits. */
  predicate Legal(s: State, e: Event, lim: Limits) {
    && s.now <= e.at
    && (e.step.IssueKey? ==> e.step.id !in s.keys)
    && (e.step.RotateKey? ==> e.step.newId !in s.keys)
    && (e.step.BeginExchange? ==> e.step.x !in s.pending)
    && (e.step.CommitRevoked? && e.step.id in s.revoking ==> e.at <= s.revoking[e.step.id] + lim.commit)
    && (e.step.FinishExchange? && e.step.x in s.pending ==> e.at <= s.pending[e.step.x].begun + lim.gap)
    && (e.step.CheckBearer? && e.step.b.Signed? ==> e.step.b.token in s.issued)
  }

  function Run(cfg: Config, events: seq<Event>): State {
    if events == [] then INITIAL else Next(cfg, Run(cfg, events[..|events| - 1]), events[|events| - 1])
  }

  predicate LegalRun(cfg: Config, events: seq<Event>, lim: Limits) {
    events == [] || (LegalRun(cfg, events[..|events| - 1], lim) && Legal(Run(cfg, events[..|events| - 1]), events[|events| - 1], lim))
  }

  lemma {:induction false} PrefixIsLegal(cfg: Config, events: seq<Event>, lim: Limits, n: nat)
    requires LegalRun(cfg, events, lim) && n <= |events|
    ensures LegalRun(cfg, events[..n], lim)
    ensures n < |events| ==> Legal(Run(cfg, events[..n]), events[n], lim) && Run(cfg, events[..n + 1]) == Next(cfg, Run(cfg, events[..n]), events[n])
  {
    if n == |events| {
      assert events[..n] == events;
    } else {
      assert events[..n + 1][..n] == events[..n];
      if n + 1 < |events| {
        assert events[..|events| - 1][..n] == events[..n];
        assert events[..|events| - 1][..n + 1] == events[..n + 1];
        PrefixIsLegal(cfg, events[..|events| - 1], lim, n);
      } else {
        assert events[..n + 1] == events;
      }
    }
  }

  // ---- What a validating step does ----

  /** Success means the limiter was reached and let the hit pass. */
  lemma AnswerIsHit(cfg: Config, s: State, e: Event)
    requires Validates(e.step)
    ensures var (counters, r) := Answer(cfg, s, e);
            match Charged(cfg, s, e)
            case None => counters == s.counters && r.Err?
            case Some(c) =>
              var (counters', d) := Hit(s.counters, BucketOf(c.keyId), c.rateLimit, e.at);
              counters == counters' && (r.Ok? <==> d.allowed) && (r.Ok? ==> r.value.claims == c)
  {
  }

  /** Raw credentials are only charged to a key that is usable at that moment. */
  lemma ChargedKeyIsUsable(cfg: Config, s: State, e: Event)
    requires Charged(cfg, s, e).Some? && !e.step.CheckBearer?
    ensures var c := Charged(cfg, s, e).value;
            c.keyId in s.keys && Usable(s.keys[c.keyId], e.at) && c.rateLimit == s.keys[c.keyId].rateLimit
  {
  }

  // ---- What one step may change ----

  /** A key's later self: same owner, secret, rights and expiry; a status never goes back. */
  predicate Evolves(a: ApiKey, b: ApiKey) {
    && b.tenant == a.tenant && b.scopes == a.scopes && b.rateLimit == a.rateLimit && b.expiresAt == a.expiresAt
    && b.rotatedFrom == a.rotatedFrom && b.secretHash == a.secretHash
    && (b.status.Active? ==> a.status.Active?)
    && (a.status.Revoked? ==> b.status.Revoked?)
    && (a.status.Grace? && b.status.Grace? ==> b.graceExpiresAt == a.graceExpiresAt)
  }

  /** A replacement inherits everything that grants access. */
  predicate Inherits(a: ApiKey, b: ApiKey) {
    b.tenant == a.tenant && b.scopes == a.scopes && b.rateLimit == a.rateLimit && b.expiresAt == a.expiresAt
  }

  /** A key that has just appeared: issued afresh, or replacing a key that was
      active and no longer is. */
  predicate Born(before: Keys, after: Keys, id: KeyId) {
    && id !in before && id in after && after[id].status.Active?
    && (after[id].rotatedFrom.None? ==> after[id].rateLimit >= 1)
    && (after[id].rotatedFrom.Some? ==>
          var p := after[id].rotatedFrom.value;
          p in before && before[p].status.Active? && p in after && !after[p].status.Active? && Inherits(before[p], after[id]))
  }

  ghost predicate KeysMoved(s: State, t: State) {
    && (forall k :: k in s.keys ==> k in t.keys && Evolves(s.keys[k], t.keys[k]))
    && ((t.keys.Keys == s.keys.Keys && t.created == s.created)
        || exists id :: Born(s.keys, t.keys, id) && t.keys.Keys == s.keys.Keys + {id} && t.created == s.created + [id])
  }

  /** The entry of `k` stems from its last listing. */
  predicate ListedAtLast(cfg: Config, s: State, k: KeyId) {
    k in s.revoking && k in s.revoked && s.revoked[k] == s.revoking[k] + (cfg.ttl + 60) * 1000
  }

  predicate SameListing(s: State, t: State, k: KeyId) {
    && k in s.revoking && k in t.revoking && t.revoking[k] == s.revoking[k]
    && (k in s.revoked ==> k in t.revoked && t.revoked[k] == s.revoked[k])
  }

  /** Listings stay or are renewed; only a listed key becomes revoked, in time. */
  ghost predicate RevokedMoved(cfg: Config, s: State, e: Event, t: State, lim: Limits) {
    && (forall k :: k in s.revoking ==> k in t.revoking)
    && (forall k :: k in t.revoking ==> SameListing(s, t, k) || (t.revoking[k] == e.at && ListedAtLast(cfg, t, k)))
    && (forall k :: k in s.keys && k in t.keys && t.keys[k].status.Revoked? && !s.keys[k].status.Revoked? ==>
          SameListing(s, t, k) && e.at <= s.revoking[k] + lim.commit)
  }

  ghost predicate TokensMoved(cfg: Config, s: State, e: Event, t: State, lim: Limits) {
    && (forall token :: token in t.issued ==>
          token in s.issued
          || exists x :: x in s.pending && token == Sign(s.pending[x].claims, e.at, cfg.ttl) && e.at <= s.pending[x].begun + lim.gap)
    && (forall x :: x in t.pending ==>
          (x in s.pending && t.pending[x] == s.pending[x]) || (t.pending[x].begun == e.at && JustAccepted(s, e, t.pending[x].claims)))
  }

  predicate JustAccepted(s: State, e: Event, c: Claims) {
    c.keyId in s.keys && Usable(s.keys[c.keyId], e.at) && c.rateLimit == s.keys[c.keyId].rateLimit
  }

  lemma KeysMove(cfg: Config, s: State, e: Event, lim: Limits)
    requires Legal(s, e, lim)
    ensures KeysMoved(s, Next(cfg, s, e)) && RevokedMoved(cfg, s, e, Next(cfg, s, e), lim)
  {
    if !Validates(e.step) && !e.step.FinishExchange? {
      match e.step {
        case IssueKey(id, hash, input) => IssueMoves(cfg, s, e, id, hash, input, lim);
        case RotateKey(id, newId, newHash) => RotateMoves(cfg, s, e, id, newId, newHash, lim);
        case ListRevoked(id) => ListMoves(cfg, s, e, id, lim);
        case CommitRevoked(id) => RevokeMoves(cfg, s, e, id, lim);
        case SetTenant(_, _) =>
      }
    }
  }

  lemma IssueMoves(cfg: Config, s: State, e: Event, id: KeyId, hash: string, input: IssueInput, lim: Limits)
    requires id !in s.keys
    ensures KeysMoved(s, AfterIssue(s, e.at, id, hash, input)) && RevokedMoved(cfg, s, e, AfterIssue(s, e.at, id, hash, input), lim)
  {
    var r := Issue(s.keys, s.tenants, id, hash, input, e.at);
    if r.Ok? {
      assert Born(s.keys, r.value, id);
    }
  }

  lemma RotatedTable(keys: Keys, id: KeyId, newId: KeyId, newHash: string, now: int, graceMs: int)
    requires Rotate(keys, id, newId, newHash, now, graceMs).Ok? && newId !in keys
    ensures var after := Rotate(keys, id, newId, newHash, now, graceMs).value;
            && (forall k :: k in keys ==> k in after && Evolves(keys[k], after[k]) && (after[k].status.Revoked? ==> keys[k].status.Revoked?))
            && Born(keys, after, newId) && after.Keys == keys.Keys + {newId}
  {
  }

  lemma RotateMoves(cfg: Config, s: State, e: Event, id: KeyId, newId: KeyId, newHash: string, lim: Limits)
    requires newId !in s.keys
    ensures KeysMoved(s, AfterRotate(cfg, s, e.at, id, newId, newHash)) && RevokedMoved(cfg, s, e, AfterRotate(cfg, s, e.at, id, newId, newHash), lim)
  {
    var r := Rotate(s.keys, id, newId, newHash, e.at, cfg.graceMs);
    if r.Ok? {
      RotatedTable(s.keys, id, newId, newHash, e.at, cfg.graceMs);
    }
  }

  lemma RevokedTable(keys: Keys, id: KeyId, now: int)
    requires Revoke(keys, id, now).Ok?
    ensures var after := Revoke(keys, id, now).value;
            && (forall k :: k in keys ==> k in after && Evolves(keys[k], after[k]) && (after[k].status.Revoked? ==> k == id || keys[k].status.Revoked?))
            && after.Keys == keys.Keys
  {
  }

  lemma SameKeysMove(s: State, t: State)
    requires t.keys == s.keys && t.created == s.created
    ensures KeysMoved(s, t)
  {
  }

  lemma ListMoves(cfg: Config, s: State, e: Event, id: KeyId, lim: Limits)
    ensures KeysMoved(s, AfterListing(cfg, s, e.at, id)) && RevokedMoved(cfg, s, e, AfterListing(cfg, s, e.at, id), lim)
  {
    var t := AfterListing(cfg, s, e.at, id);
    SameKeysMove(s, t);
    forall k | k in t.revoking ensures SameListing(s, t, k) || (t.revoking[k] == e.at && ListedAtLast(cfg, t, k)) {
    }
  }

  lemma RevokeMoves(cfg: Config, s: State, e: Event, id: KeyId, lim: Limits)
    requires id in s.revoking ==> e.at <= s.revoking[id] + lim.commit
    ensures KeysMoved(s, AfterCommit(s, e.at, id)) && RevokedMoved(cfg, s, e, AfterCommit(s, e.at, id), lim)
  {
    if id in s.keys && id in s.revoking {
      RevokedTable(s.keys, id, s.revoking[id]);
    }
  }

  lemma SigningMoves(cfg: Config, s: State, e: Event, lim: Limits)
    requires Legal(s, e, lim) && e.step.FinishExchange?
    ensures TokensMoved(cfg, s, e, AfterSigning(cfg, s, e), lim)
  {
  }

  lemma ValidationMoves(cfg: Config, s: State, e: Event, lim: Limits)
    requires Legal(s, e, lim) && Validates(e.step)
    ensures TokensMoved(cfg, s, e, AfterValidation(cfg, s, e), lim)
  {
    AnswerIsHit(cfg, s, e);
    if e.step.BeginExchange? && Charged(cfg, s, e).Some? {
      ChargedKeyIsUsable(cfg, s, e);
    }
  }

  lemma TokensMove(cfg: Config, s: State, e: Event, lim: Limits)
    requires Legal(s, e, lim)
    ensures TokensMoved(cfg, s, e, Next(cfg, s, e), lim) && Next(cfg, s, e).now == e.at
  {
    if Validates(e.step) {
      ValidationMoves(cfg, s, e, lim);
    } else if e.step.FinishExchange? {
      SigningMoves(cfg, s, e, lim);
    }
  }

  // ---- Keys over time ----

  /** A key never comes back: unusable once, unusable at every later time. */
  lemma EvolvedStaysUnusable(a: ApiKey, b: ApiKey, t: int, u: int)
    requires Evolves(a, b) && !Usable(a, t) && t <= u
    ensures !Usable(b, u)
  {
  }

  lemma {:induction false} KeysEvolve(cfg: Config, events: seq<Event>, lim: Limits, i: nat, k: KeyId)
    requires LegalRun(cfg, events, lim) && i <= |events| && k in Run(cfg, events[..i]).keys
    ensures k in Run(cfg, events).keys && Evolves(Run(cfg, events[..i]).keys[k], Run(cfg, events).keys[k])
    decreases |events| - i
  {
    if i < |events| {
      PrefixIsLegal(cfg, events, lim, i);
      KeysMove(cfg, Run(cfg, events[..i]), events[i], lim);
      KeysEvolve(cfg, events, lim, i + 1, k);
    } else {
      assert events[..i] == events;
    }
  }

  /** Unusable once, unusable forever, on every run. */
  lemma UnusableForever(cfg: Config, events: seq<Event>, lim: Limits, i: nat, k: KeyId, t: int, u: int)
    requires LegalRun(cfg, events, lim) && i <= |events| && t <= u
    requires k in Run(cfg, events[..i]).keys && !Usable(Run(cfg, events[..i]).keys[k], t)
    ensures k in Run(cfg, events).keys && !Usable(Run(cfg, events).keys[k], u)
  {
    KeysEvolve(cfg, events, lim, i, k);
    EvolvedStaysUnusable(Run(cfg, events[..i]).keys[k], Run(cfg, events).keys[k], t, u);
  }

  // ---- Tokens and their keys ----

  /** Tokens belong to known keys, carry their limit, and die `ttl` after signing. */
  ghost predicate TokensOk(cfg: Config, s: State) {
    && (forall t :: t in s.issued ==> KnownClaims(s.keys, t.claims) && t.exp * 1000 <= s.now + cfg.ttl * 1000)
    && (forall x :: x in s.pending ==> KnownClaims(s.keys, s.pending[x].claims) && s.pending[x].begun <= s.now)
  }

  predicate KnownClaims(keys: Keys, c: Claims) { c.keyId in keys && c.rateLimit == keys[c.keyId].rateLimit }

  lemma MoveKeepsTokensOk(cfg: Config, s: State, e: Event, t: State, lim: Limits)
    requires TokensOk(cfg, s) && s.now <= e.at == t.now && KeysMoved(s, t) && TokensMoved(cfg, s, e, t, lim)
    ensures TokensOk(cfg, t)
  {
    forall token | token in t.issued ensures KnownClaims(t.keys, token.claims) && token.exp * 1000 <= t.now + cfg.ttl * 1000 {
      assert KnownClaims(s.keys, token.claims);
    }
    forall x | x in t.pending ensures KnownClaims(t.keys, t.pending[x].claims) && t.pending[x].begun <= t.now {
      assert KnownClaims(s.keys, t.pending[x].claims);
    }
  }

  lemma {:induction false} TokensStayOk(cfg: Config, events: seq<Event>, lim: Limits)
    requires LegalRun(cfg, events, lim)
    ensures TokensOk(cfg, Run(cfg, events))
  {
    if events != [] {
      var s, e := Run(cfg, events[..|events| - 1]), events[|events| - 1];
      TokensStayOk(cfg, events[..|events| - 1], lim);
      KeysMove(cfg, s, e, lim);
      TokensMove(cfg, s, e, lim);
      MoveKeepsTokensOk(cfg, s, e, Next(cfg, s, e), lim);
    }
  }

  // ---- Revocation is final ----

  const SLACK_MS := 60_000

  predicate IsRevoked(s: State, k: KeyId) { k in s.keys && s.keys[k].status.Revoked? }

  /** The list entry of `k` outlasts every token of it that exists or can still
      be signed. */
  ghost predicate EntryOutlasts(cfg: Config, s: State, lim: Limits, k: KeyId) {
    && k in s.revoking && k in s.revoked
    && (forall t :: t in s.issued && t.claims.keyId == k ==> t.exp * 1000 <= s.revoked[k])
    && (forall x :: x in s.pending && s.pending[x].claims.keyId == k ==> s.pending[x].begun + lim.gap + cfg.ttl * 1000 <= s.revoked[k])
  }

  ghost predicate Outlasted(cfg: Config, s: State, lim: Limits) {
    && (forall k :: k in s.revoking ==> ListedAtLast(cfg, s, k))
    && (forall k :: IsRevoked(s, k) ==> EntryOutlasts(cfg, s, lim, k))
  }

  /** An entry listed no longer than `commit` ago. */
  lemma FreshEntryOutlasts(cfg: Config, t: State, lim: Limits, k: KeyId)
    requires lim.gap + lim.commit <= SLACK_MS && TokensOk(cfg, t)
    requires ListedAtLast(cfg, t, k) && t.now <= t.revoking[k] + lim.commit
    ensures EntryOutlasts(cfg, t, lim, k)
  {
  }

  lemma OldEntryOutlasts(cfg: Config, s: State, e: Event, t: State, lim: Limits, k: KeyId)
    requires s.now <= e.at == t.now && TokensMoved(cfg, s, e, t, lim)
    requires IsRevoked(s, k) && EntryOutlasts(cfg, s, lim, k) && SameListing(s, t, k)
    ensures EntryOutlasts(cfg, t, lim, k)
  {
  }

  lemma MoveKeepsOutlasted(cfg: Config, s: State, e: Event, t: State, lim: Limits)
    requires lim.gap + lim.commit <= SLACK_MS && TokensOk(cfg, t) && Outlasted(cfg, s, lim) && s.now <= e.at == t.now
    requires KeysMoved(s, t) && RevokedMoved(cfg, s, e, t, lim) && TokensMoved(cfg, s, e, t, lim)
    ensures Outlasted(cfg, t, lim)
  {
    forall k | k in t.revoking ensures ListedAtLast(cfg, t, k) {
      if SameListing(s, t, k) { assert ListedAtLast(cfg, s, k); }
    }
    forall k | IsRevoked(t, k) ensures EntryOutlasts(cfg, t, lim, k) {
      if IsRevoked(s, k) && SameListing(s, t, k) {
        OldEntryOutlasts(cfg, s, e, t, lim, k);
      } else {
        assert k in s.revoking && k in t.revoking;
        FreshEntryOutlasts(cfg, t, lim, k);
      }
    }
  }

  lemma {:induction false} AlwaysOutlasted(cfg: Config, events: seq<Event>, lim: Limits)
    requires lim.gap + lim.commit <= SLACK_MS && LegalRun(cfg, events, lim)
    ensures Outlasted(cfg, Run(cfg, events), lim)
  {
    if events != [] {
      var s, e := Run(cfg, events[..|events| - 1]), events[|events| - 1];
      AlwaysOutlasted(cfg, events[..|events| - 1], lim);
      TokensStayOk(cfg, events, lim);
      KeysMove(cfg, s, e, lim);
      TokensMove(cfg, s, e, lim);
      MoveKeepsOutlasted(cfg, s, e, Next(cfg, s, e), lim);
    }
  }

  /** Nothing of a revoked key validates: not the key, not an exchange, not a token. */
  lemma RevokedNeverAdmits(cfg: Config, s: State, e: Event, lim: Limits, k: KeyId)
    requires Legal(s, e, lim) && Outlasted(cfg, s, lim) && IsRevoked(s, k)
    ensures !Admits(cfg, s, e, k)
  {
    if Validates(e.step) {
      AnswerIsHit(cfg, s, e);
      if Charged(cfg, s, e).Some? && !e.step.CheckBearer? {
        ChargedKeyIsUsable(cfg, s, e);
      }
      assert EntryOutlasts(cfg, s, lim, k);
    }
  }

  lemma RevokesMakesRevoked(cfg: Config, s: State, e: Event, k: KeyId)
    requires Revokes(s, e, k)
    ensures IsRevoked(Next(cfg, s, e), k)
  {
  }

  lemma RevokedStays(cfg: Config, events: seq<Event>, lim: Limits, i: nat, k: KeyId)
    requires LegalRun(cfg, events, lim) && i < |events| && Revokes(Run(cfg, events[..i]), events[i], k)
    ensures IsRevoked(Run(cfg, events), k)
  {
    PrefixIsLegal(cfg, events, lim, i);
    RevokesMakesRevoked(cfg, Run(cfg, events[..i]), events[i], k);
    KeysEvolve(cfg, events, lim, i + 1, k);
  }

  /** Revocation is final on every run where the delay of committing it and that of
      signing in an exchange add up to at most a minute: after the revocation is
      committed nothing of the key validates. */
  lemma RevocationIsFinal(cfg: Config, events: seq<Event>, lim: Limits, i: nat, j: nat, k: KeyId)
    requires lim.gap + lim.commit <= SLACK_MS && LegalRun(cfg, events, lim) && i < j < |events|
    requires Revokes(Run(cfg, events[..i]), events[i], k)
    ensures !Admits(cfg, Run(cfg, events[..j]), events[j], k)
  {
    PrefixIsLegal(cfg, events, lim, j);
    assert events[..j][..i] == events[..i];
    RevokedStays(cfg, events[..j], lim, i, k);
    AlwaysOutlasted(cfg, events[..j], lim);
    RevokedNeverAdmits(cfg, Run(cfg, events[..j]), events[j], lim, k);
  }

  // ---- Token lag ----

  /** Tokens of `k` that exist or can still be signed die by `d + lim.gap + ttl`. */
  ghost predicate DyingBy(cfg: Config, s: State, lim: Limits, k: KeyId, d: nat) {
    && k in s.keys && !Usable(s.keys[k], d)
    && (forall t :: t in s.issued && t.claims.keyId == k ==> t.exp * 1000 <= d + lim.gap + cfg.ttl * 1000)
    && (forall x :: x in s.pending && s.pending[x].claims.keyId == k ==> s.pending[x].begun <= d)
  }

  lemma MoveKeepsDying(cfg: Config, s: State, e: Event, t: State, lim: Limits, k: KeyId, d: nat)
    requires d <= e.at && DyingBy(cfg, s, lim, k, d) && KeysMoved(s, t) && TokensMoved(cfg, s, e, t, lim)
    ensures DyingBy(cfg, t, lim, k, d)
  {
    EvolvedStaysUnusable(s.keys[k], t.keys[k], d, d);
    assert Evolves(s.keys[k], s.keys[k]);
    EvolvedStaysUnusable(s.keys[k], s.keys[k], d, e.at);
  }

  lemma {:induction false} DyingStays(cfg: Config, events: seq<Event>, lim: Limits, i: nat, k: KeyId, d: nat)
    requires LegalRun(cfg, events, lim) && i <= |events| && DyingBy(cfg, Run(cfg, events[..i]), lim, k, d)
    requires forall n :: i <= n < |events| ==> d <= events[n].at
    ensures DyingBy(cfg, Run(cfg, events), lim, k, d)
    decreases |events| - i
  {
    if i < |events| {
      var s, e := Run(cfg, events[..i]), events[i];
      PrefixIsLegal(cfg, events, lim, i);
      KeysMove(cfg, s, e, lim);
      TokensMove(cfg, s, e, lim);
      MoveKeepsDying(cfg, s, e, Next(cfg, s, e), lim, k, d);
      DyingStays(cfg, events, lim, i + 1, k, d);
    } else {
      assert events[..i] == events;
    }
  }

  lemma DyingRefusesBearers(cfg: Config, s: State, e: Event, lim: Limits, k: KeyId, d: nat)
    requires Legal(s, e, lim) && DyingBy(cfg, s, lim, k, d)
    requires e.step.CheckBearer? && e.at >= d + lim.gap + cfg.ttl * 1000
    ensures !Admits(cfg, s, e, k)
  {
    AnswerIsHit(cfg, s, e);
  }

  lemma TokensBornDying(cfg: Config, s: State, lim: Limits, k: KeyId, d: nat)
    requires TokensOk(cfg, s) && s.now <= d && k in s.keys && !Usable(s.keys[k], d)
    ensures DyingBy(cfg, s, lim, k, d)
  {
  }

  /** Token lag: if a key is unusable at `d` (expired, out of grace or revoked), no
      bearer token of it validates at or after `d + lim.gap + ttl`, whatever happens
      in between. With atomic exchanges the gap is zero. */
  lemma TokenLagBound(cfg: Config, events: seq<Event>, lim: Limits, i: nat, j: nat, k: KeyId, d: nat)
    requires LegalRun(cfg, events, lim) && i <= j < |events|
    requires Run(cfg, events[..i]).now <= d && k in Run(cfg, events[..i]).keys && !Usable(Run(cfg, events[..i]).keys[k], d)
    requires forall n :: i <= n < |events| ==> d <= events[n].at
    requires events[j].at >= d + lim.gap + cfg.ttl * 1000 && events[j].step.CheckBearer?
    ensures !Admits(cfg, Run(cfg, events[..j]), events[j], k)
  {
    PrefixIsLegal(cfg, events, lim, i);
    PrefixIsLegal(cfg, events, lim, j);
    TokensStayOk(cfg, events[..i], lim);
    TokensBornDying(cfg, Run(cfg, events[..i]), lim, k, d);
    assert events[..j][..i] == events[..i];
    DyingStays(cfg, events[..j], lim, i, k, d);
    DyingRefusesBearers(cfg, Run(cfg, events[..j]), events[j], lim, k, d);
  }
}
