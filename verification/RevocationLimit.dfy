/** How far the finality of revocation reaches: exactly as long as the delay of
    committing a revocation and the delay of signing in an exchange add up to at
    most one minute. */
module RevocationLimit {
  import opened Common
  import opened RateLimiter
  import opened ApiKeys
  import opened Credentials
  import opened CredentialRuns

  /** Something of key `k` validates at event `j` although event `i` revoked it. */
  ghost predicate Revives(cfg: Config, events: seq<Event>, lim: Limits, i: nat, j: nat, k: KeyId) {
    && LegalRun(cfg, events, lim) && i < j < |events|
    && Revokes(Run(cfg, events[..i]), events[i], k)
    && Admits(cfg, Run(cfg, events[..j]), events[j], k)
  }

  // ---- A run that signs too late ----

  const OWNER := Tenant(true, Standard)
  const REQUEST := IssueInput("t", "n", [], None, None)
  const LATE := 61_000

  function LateKey(cfg: Config, scopes: seq<string>): ApiKey {
    ApiKey("t", "n", cfg.digest("s"), scopes, Active, 600, 0, None, None, None, None)
  }

  function LateClaims(scopes: seq<string>): Claims { Claims("t", "k", scopes, Standard, 600) }

  function LateToken(cfg: Config, scopes: seq<string>): Token { Sign(LateClaims(scopes), LATE, cfg.ttl) }

  /** When the revocation listed at 999 ms is committed. */
  function Commit(lim: Limits): nat { if lim.commit <= 60_001 then 999 + lim.commit else LATE }

  /** One key; its revocation listed at 999 ms; an exchange begun just before the
      commit and signed 60 001 ms after the listing; the token presented in the
      last millisecond it lives. */
  function LateRun(cfg: Config, lim: Limits): seq<Event>
    requires cfg.ttl >= 1
  {
    [ Event(0, SetTenant("t", OWNER)),
      Event(0, IssueKey("k", cfg.digest("s"), REQUEST)),
      Event(999, ListRevoked("k")),
      Event(Commit(lim), BeginExchange(0, Presented("k", "s"))),
      Event(Commit(lim), CommitRevoked("k")),
      Event(LATE, FinishExchange(0)),
      Event((cfg.ttl + 61) * 1000 - 1, CheckBearer(Signed(LateToken(cfg, Distinct(DEFAULT_SCOPES))))) ]
  }

  lemma ExtendRun(cfg: Config, front: seq<Event>, e: Event, lim: Limits)
    requires LegalRun(cfg, front, lim) && Legal(Run(cfg, front), e, lim)
    ensures LegalRun(cfg, front + [e], lim) && Run(cfg, front + [e]) == Next(cfg, Run(cfg, front), e)
  {
    assert (front + [e])[..|front|] == front;
  }

  lemma LateKeyIsIssued(cfg: Config, lim: Limits)
    requires cfg.ttl >= 1
    ensures var s := Run(cfg, LateRun(cfg, lim)[..2]);
            && LegalRun(cfg, LateRun(cfg, lim)[..2], lim)
            && s == INITIAL.(tenants := map["t" := OWNER], keys := map["k" := LateKey(cfg, Distinct(DEFAULT_SCOPES))], created := ["k"])
  {
    var run := LateRun(cfg, lim);
    assert run[..0] == [];
    ExtendRun(cfg, [], run[0], lim);
    assert run[..1] == [] + [run[0]];
    ExtendRun(cfg, run[..1], run[1], lim);
    assert run[..2] == run[..1] + [run[1]];
    assert ValidateScopes(DEFAULT_SCOPES) == Ok(Distinct(DEFAULT_SCOPES));
  }

  lemma LateKeyIsListed(cfg: Config, lim: Limits)
    requires cfg.ttl >= 1
    ensures var s := Run(cfg, LateRun(cfg, lim)[..3]);
            && LegalRun(cfg, LateRun(cfg, lim)[..3], lim)
            && s == INITIAL.(tenants := map["t" := OWNER], keys := map["k" := LateKey(cfg, Distinct(DEFAULT_SCOPES))], created := ["k"],
                             revoked := map["k" := (cfg.ttl + 60) * 1000 + 999], revoking := map["k" := 999], now := 999)
  {
    var run := LateRun(cfg, lim);
    LateKeyIsIssued(cfg, lim);
    ExtendRun(cfg, run[..2], run[2], lim);
    assert run[..3] == run[..2] + [run[2]];
  }

  /** Everything the late run still needs to know after step `n`. */
  ghost predicate Late(cfg: Config, lim: Limits, s: State) {
    && s.revoked == map["k" := (cfg.ttl + 60) * 1000 + 999] && s.revoking == map["k" := 999] && "k" in s.keys
    && s.counters == map[("key:" + "k", WindowStart(Commit(lim))) := Counter(1, Commit(lim) + EXPIRY_MS)]
  }

  lemma LateExchangeBegins(cfg: Config, lim: Limits)
    requires cfg.ttl >= 1
    ensures var s := Run(cfg, LateRun(cfg, lim)[..4]);
            && LegalRun(cfg, LateRun(cfg, lim)[..4], lim) && Late(cfg, lim, s) && s.now == Commit(lim)
            && s.pending == map[0 := Exchange(LateClaims(Distinct(DEFAULT_SCOPES)), Commit(lim))]
  {
    var run := LateRun(cfg, lim);
    LateKeyIsListed(cfg, lim);
    ExtendRun(cfg, run[..3], run[3], lim);
    assert run[..4] == run[..3] + [run[3]];
    LateAnswer(cfg, Run(cfg, run[..3]), run[3]);
  }

  lemma LateAnswer(cfg: Config, s: State, e: Event)
    requires s.keys == map["k" := LateKey(cfg, Distinct(DEFAULT_SCOPES))] && s.tenants == map["t" := OWNER] && s.counters == map[]
    requires e.step == BeginExchange(0, Presented("k", "s"))
    ensures var (counters, r) := Answer(cfg, s, e);
            && counters == map[("key:" + "k", WindowStart(e.at)) := Counter(1, e.at + EXPIRY_MS)]
            && r.Ok? && r.value.claims == LateClaims(Distinct(DEFAULT_SCOPES))
  {
    assert BucketOf("k") == "key:" + "k";
  }

  lemma LateKeyIsRevoked(cfg: Config, lim: Limits)
    requires cfg.ttl >= 1
    ensures var s := Run(cfg, LateRun(cfg, lim)[..5]);
            && LegalRun(cfg, LateRun(cfg, lim)[..5], lim) && Late(cfg, lim, s) && s.now == Commit(lim)
            && s.pending == map[0 := Exchange(LateClaims(Distinct(DEFAULT_SCOPES)), Commit(lim))]
    ensures Revokes(Run(cfg, LateRun(cfg, lim)[..4]), LateRun(cfg, lim)[4], "k")
  {
    var run := LateRun(cfg, lim);
    LateExchangeBegins(cfg, lim);
    ExtendRun(cfg, run[..4], run[4], lim);
    assert run[..5] == run[..4] + [run[4]];
  }

  lemma LateTokenIsSigned(cfg: Config, lim: Limits)
    requires cfg.ttl >= 1 && lim.gap + lim.commit > SLACK_MS
    ensures var s := Run(cfg, LateRun(cfg, lim)[..6]);
            && LegalRun(cfg, LateRun(cfg, lim)[..6], lim) && Late(cfg, lim, s) && s.now == LATE
            && LateToken(cfg, Distinct(DEFAULT_SCOPES)) in s.issued
  {
    var run := LateRun(cfg, lim);
    LateKeyIsRevoked(cfg, lim);
    ExtendRun(cfg, run[..5], run[5], lim);
    assert run[..6] == run[..5] + [run[5]];
  }

  lemma LateTokenAdmitted(cfg: Config, lim: Limits, s: State, e: Event)
    requires cfg.ttl >= 1 && Late(cfg, lim, s) && e == LateRun(cfg, lim)[6]
    ensures Admits(cfg, s, e, "k")
  {
    AnswerIsHit(cfg, s, e);
    assert Charged(cfg, s, e) == Some(LateClaims(Distinct(DEFAULT_SCOPES)));
    assert Live(s.counters, (BucketOf("k"), WindowStart(e.at)), e.at) <= 1;
  }

  lemma LateTokenValidates(cfg: Config, lim: Limits)
    requires cfg.ttl >= 1 && lim.gap + lim.commit > SLACK_MS
    ensures Revives(cfg, LateRun(cfg, lim), lim, 4, 6, "k")
  {
    var run := LateRun(cfg, lim);
    LateKeyIsRevoked(cfg, lim);
    LateTokenIsSigned(cfg, lim);
    ExtendRun(cfg, run[..6], run[6], lim);
    assert run == run[..6] + [run[6]];
    LateTokenAdmitted(cfg, lim, Run(cfg, run[..6]), run[6]);
  }

  /** Revocation is final on every run if and only if committing it and signing in
      an exchange together never take more than a minute. */
  lemma FinalExactlyWithinAMinute(cfg: Config, lim: Limits)
    requires cfg.ttl >= 1
    ensures lim.gap + lim.commit <= SLACK_MS <==> !exists events, i, j, k :: Revives(cfg, events, lim, i, j, k)
  {
    if lim.gap + lim.commit <= SLACK_MS {
      forall events, i, j, k ensures !Revives(cfg, events, lim, i, j, k) {
        if Revives(cfg, events, lim, i, j, k) {
          RevocationIsFinal(cfg, events, lim, i, j, k);
        }
      }
    } else {
      LateTokenValidates(cfg, lim);
    }
  }
}
