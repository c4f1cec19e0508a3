/** From the approval of a request to the tokens that are issued for it. */
module EndToEnd {
  import opened Basics
  import opened Records
  import opened Params
  import opened Issuance
  import opened Exchange
  import opened Failures
  import opened Rotation
  import opened Approvals
  import opened Memory
  import Claims
  import Guarantees
  import Interleaving

  /** The redirect URI and code verifier a token request must carry for a code. */
  ghost predicate Proves(cfg: Config, code: Token, redirectURI: string, verifier: string) {
    && (redirectURI == code.redirectURI
        || (redirectURI == "" && !(code.redirectURIInRequest && code.codeChallenge == "")))
    && (if code.codeChallenge == "" then verifier == ""
        else 43 <= |verifier| <= 128 && Unreserved(verifier) && cfg.s256(verifier) == code.codeChallenge)
  }

  lemma PreCheckExact(cfg: Config, code: Token, a: Attempt)
    requires a.kind == AuthorizationCode
    ensures PreCheck(cfg, code, a) == None <==> Proves(cfg, code, a.redirectURI, a.verifier)
  {
  }

  /** A code or refresh token is only redeemed by a request of its client, at its
      issuer, before it was used and before it expired; and a code only with the
      proof of possession: with the verifier whose S256 transform is the approved
      challenge, or, if none was approved, without a verifier. */
  lemma RedeemedWithProof(cfg: Config, w: World, a: Attempt)
    requires Redeem(cfg, w, a).result.Ok?
    ensures a.value in w.tokens
    ensures var t := w.tokens[a.value];
      && t.kind == a.kind && t.issuer == a.issuer && t.clientID == a.client.id
      && t.consumedAt == None && t.Unexpired(Tick(w).now)
      && (a.kind == AuthorizationCode ==> Proves(cfg, t, a.redirectURI, a.verifier))
  {
    if a.kind == AuthorizationCode { PreCheckExact(cfg, w.tokens[a.value], a); }
  }

  /** The stored token is the one the request claims to have. */
  predicate Owns(w: World, a: Attempt) {
    a.value in w.tokens && w.tokens[a.value].kind == a.kind && w.tokens[a.value].issuer == a.issuer
    && w.tokens[a.value].clientID == a.client.id
  }

  /** A request by another client, at another issuer or for another kind of token
      changes no token, whether or not the token was used before; nor does a request
      for a token that expired unused. */
  lemma ForeignRequestsChangeNothing(cfg: Config, w: World, a: Attempt)
    requires !Owns(w, a) || (w.tokens[a.value].consumedAt == None && !w.tokens[a.value].Unexpired(Tick(w).now))
    ensures Redeem(cfg, w, a).result.Err? && Redeem(cfg, w, a).world.tokens == w.tokens
  {
  }

  /** A request without the proof changes no token, even if the code was already
      used: knowing a code is not enough to have its grant revoked. */
  lemma UnprovenChangesNothing(cfg: Config, w: World, a: Attempt)
    requires a.kind == AuthorizationCode
    requires a.value in w.tokens ==> !Proves(cfg, w.tokens[a.value], a.redirectURI, a.verifier)
    ensures Redeem(cfg, w, a).result.Err? && Redeem(cfg, w, a).world.tokens == w.tokens
  {
    if a.value in w.tokens {
      PreCheckExact(cfg, w.tokens[a.value], a);
    }
  }

  /** A matching request for a used code or refresh token revokes its grant: exactly
      the tokens of the grant are gone. */
  lemma ReplayRevokes(cfg: Config, w: World, a: Attempt)
    requires Owns(w, a) && w.tokens[a.value].consumedAt.Some? && AllSucceed(w.script)
    requires a.kind == AuthorizationCode ==> Proves(cfg, w.tokens[a.value], a.redirectURI, a.verifier)
    requires a.client.AllowsGrant(GrantOf(a.kind)) && a.value != ""
    ensures Redeem(cfg, w, a).result == Err(InvalidGrant)
    ensures Redeem(cfg, w, a).world.tokens == WithoutGrant(w.tokens, w.tokens[a.value].grantID)
  {
    if a.kind == AuthorizationCode { PreCheckExact(cfg, w.tokens[a.value], a); }
    TickScript(w);
  }

  /** The token is presented by its owner, with the proof of possession if it is a
      code, before it was used and before it expired. */
  ghost predicate Presented(cfg: Config, w: World, a: Attempt) {
    && a.value != "" && Owns(w, a) && w.tokens[a.value].consumedAt == None && w.tokens[a.value].Unexpired(Tick(w).now)
    && (a.kind == AuthorizationCode ==> Proves(cfg, w.tokens[a.value], a.redirectURI, a.verifier))
  }

  /** Why an exchange is rejected when nothing fails: the client may not use the grant;
      nothing was presented; what was presented is not a usable token of the client;
      the registration no longer covers the grant, or the request asks for more than
      was granted, in the order in which the two grants look; or planning fails. And
      nothing else keeps it from succeeding before the token expires. */
  lemma WhyRejected(cfg: Config, w: World, a: Attempt)
    requires AllSucceed(w.script) && a.access != "" && FreshFor(w, a)
    ensures var r := Redeem(cfg, w, a).result;
      if !a.client.AllowsGrant(GrantOf(a.kind)) then r == Err(UnauthorizedClient)
      else if a.value == "" then r == Err(InvalidRequest)
      else if !Presented(cfg, w, a) then r == Err(InvalidGrant)
      else
        var t := w.tokens[a.value];
        var covered, inAudience := SubsetOf(t.scopes, a.client.scopes), SubsetOf(t.audience, a.client.audience);
        var granted := a.scopes.Some? ==> SubsetOf(a.scopes.value, t.scopes);
        var scopes := if a.scopes.Some? then Dedup(a.scopes.value) else t.scopes;
        var plan := Planned(cfg, a.client, t.audience, scopes, WithRefresh(a, t), a.hook);
        && (!covered ==> r == Err(InvalidScope))
        && (covered && !inAudience ==>
              r == Err(if a.kind != AuthorizationCode && !granted then InvalidScope else InvalidGrant))
        && (covered && inAudience && !granted ==> r == Err(InvalidScope))
        && (covered && inAudience && granted && plan.Err? ==> r == Err(plan.error))
        && (covered && inAudience && granted && plan.Ok? && Horizon(w) < t.expiresAt ==> r.Ok?)
  {
    TickScript(w);
    if a.value in w.tokens && a.kind == AuthorizationCode { PreCheckExact(cfg, w.tokens[a.value], a); }
    if a.client.AllowsGrant(GrantOf(a.kind)) && Presented(cfg, w, a) {
      if PlanAttempt(cfg, w.tokens[a.value], a).Ok? && Horizon(w) < w.tokens[a.value].expiresAt {
        ExchangeSucceeds(cfg, w, a);
      }
    }
  }

  /** Only a presented token can be rejected for being gone when it is consumed, and only
      because it expired in between. */
  lemma GoneMeansExpired(w: World, records: seq<Token>, h: Hash)
    requires NewRecords(w, records) && h in w.tokens && w.tokens[h].consumedAt == None
    requires StoreAndConsume(w, records, h).result.Err? && StoreAndConsume(w, records, h).result.error != ServerError
    ensures StoreAndConsume(w, records, h).result == Err(InvalidGrant)
    ensures Collectable(StoreAndConsume(w, records, h).world.now, w.tokens[h].expiresAt)
  {
    var s := StoreTokens(w, records);
    HashesExact(records);
    StoreKeeps(w, records, HashesOf(records));
    OnlyServerErrors(w, records);
    var c := Consume(s.world, h);
    DiscardKeeps(c.world, records, HashesOf(records));
  }

  lemma {:induction false} OnlyServerErrors(w: World, records: seq<Token>)
    ensures StoreTokens(w, records).result.Err? ==> StoreTokens(w, records).result.error == ServerError
    decreases records
  {
    if records != [] && CreateToken(w, records[0]).result.Ok? {
      OnlyServerErrors(CreateToken(w, records[0]).world, records[1..]);
    }
  }

  /** Whatever fails, the client is only blamed for what is its own fault: an error other
      than server_error and the hook's own has the reason it names. */
  lemma BlamedForAReason(cfg: Config, w: World, a: Attempt)
    requires FreshFor(w, a) && Redeem(cfg, w, a).result.Err? && (a.hook.Some? ==> a.hook.value.Adjusts?)
    ensures var e, v := Redeem(cfg, w, a).result.error, Redeem(cfg, w, a).world;
      && e in {ServerError, UnauthorizedClient, InvalidRequest, InvalidScope, InvalidGrant}
      && (e == UnauthorizedClient ==> !a.client.AllowsGrant(GrantOf(a.kind)))
      && (e == InvalidRequest ==> a.value == "")
      && (e == InvalidScope ==>
            && Presented(cfg, w, a)
            && (!SubsetOf(w.tokens[a.value].scopes, a.client.scopes)
                || (a.scopes.Some? && !SubsetOf(a.scopes.value, w.tokens[a.value].scopes))))
      && (e == InvalidGrant ==>
            || !Presented(cfg, w, a)
            || !SubsetOf(w.tokens[a.value].audience, a.client.audience)
            || Collectable(v.now, w.tokens[a.value].expiresAt))
  {
    if a.value in w.tokens && a.kind == AuthorizationCode { PreCheckExact(cfg, w.tokens[a.value], a); }
    if a.client.AllowsGrant(GrantOf(a.kind)) && Presented(cfg, w, a) && !Fails(w) {
      BlamedAfterChecks(cfg, Tick(w), w.tokens[a.value], a);
    }
  }

  lemma BlamedAfterChecks(cfg: Config, w: World, t: Token, a: Attempt)
    requires FreshFor(w, a) && a.value in w.tokens && w.tokens[a.value] == t && t.consumedAt == None
    requires Issue(cfg, w, t, a).result.Err? && (a.hook.Some? ==> a.hook.value.Adjusts?)
    ensures var e := Issue(cfg, w, t, a).result.error;
      && e in {ServerError, InvalidScope, InvalidGrant}
      && (e == InvalidScope ==>
            !SubsetOf(t.scopes, a.client.scopes) || (a.scopes.Some? && !SubsetOf(a.scopes.value, t.scopes)))
      && (e == InvalidGrant ==>
            !SubsetOf(t.audience, a.client.audience) || Collectable(Issue(cfg, w, t, a).world.now, t.expiresAt))
  {
    var m := Tick(w);
    if PlanAttempt(cfg, t, a).Ok? && !Fails(w) && a.access != "" {
      var rs := Minted(t, PlanAttempt(cfg, t, a).value, a.access, a.refresh, m.now);
      MintedNew(m, t, PlanAttempt(cfg, t, a).value, a, m.now);
      if StoreAndConsume(m, rs, a.value).result.error != ServerError {
        GoneMeansExpired(m, rs, a.value);
      }
    }
  }

  /** A revocation request removes tokens only for the client they were issued to, at
      their issuer: the whole grant of a refresh token, or one access token. When
      nothing fails, it does so exactly for these, and only a token of another client
      is answered with an error. */
  lemma RevocationExact(w: World, issuer: string, clientID: string, h: Hash)
    requires AllSucceed(w.script)
    ensures var o := ServeRevocation(w, issuer, clientID, h);
      var known := h != "" && h in w.tokens && w.tokens[h].issuer == issuer && w.tokens[h].kind != AuthorizationCode;
      && (o.result == Err(UnauthorizedClient) <==> known && w.tokens[h].clientID != clientID)
      && (o.result == Err(InvalidRequest) <==> h == "")
      && (o.result.Err? ==> o.result.error in {UnauthorizedClient, InvalidRequest})
      && (forall k :: k in w.tokens && k !in o.world.tokens <==>
            known && w.tokens[h].clientID == clientID && k in w.tokens
            && if w.tokens[h].kind == RefreshToken then w.tokens[k].grantID == w.tokens[h].grantID else k == h)
      && (forall k :: k in o.world.tokens ==> k in w.tokens && o.world.tokens[k] == w.tokens[k])
  {
    TickScript(w);
  }

  /** A revocation that fails, wherever it fails, changes no token. */
  lemma FailedRevocationChangesNothing(w: World, issuer: string, clientID: string, h: Hash)
    requires ServeRevocation(w, issuer, clientID, h).result.Err?
    ensures ServeRevocation(w, issuer, clientID, h).world.tokens == w.tokens
  {
  }

  /** A code exchange by the approved client under the registration the code was
      approved with: proven, in time, without hook or failure. */
  ghost predicate TimelyExchange(cfg: Config, w: World, issuer: string, client: Client, code: Token, a: Attempt) {
    && a.kind == AuthorizationCode && a.issuer == issuer && a.client == client && a.value == code.hash != ""
    && a.scopes == None && a.hook == None && a.access != "" && a.refresh != ""
    && Proves(cfg, code, a.redirectURI, a.verifier)
    && AllSucceed(w.script) && FreshFor(w, a) && Horizon(w) < code.expiresAt
  }

  lemma CodeMatches(cfg: Config, w: World, issuer: string, client: Client, code: Token, a: Attempt)
    requires SafeCode(cfg, issuer, client, code) && TimelyExchange(cfg, w, issuer, client, code, a)
    ensures Matches(cfg, code, a)
    ensures PlanAttempt(cfg, code, a).value.refresh <==>
      client.AllowsGrant(GRANT_REFRESH) && ("openid" in code.scopes ==> "offline_access" in code.scopes)
    ensures PlanAttempt(cfg, code, a).value.scopes == code.scopes
    ensures cfg.Valid() && cfg.Registered(client, client.id) ==>
      PlanAttempt(cfg, code, a).value.refreshLifetime == RefreshLifetime(cfg, client)
  {
    PreCheckExact(cfg, code, a);
    PlanWithoutHook(cfg, client, code.audience, code.scopes, WithRefresh(a, code));
    if cfg.Valid() && cfg.Registered(client, client.id) {
      PlannedLifetimes(cfg, client, code.audience, code.scopes, WithRefresh(a, code), None);
    }
  }

  /** Completeness: a code that Approve issued is redeemable, a refresh token is
      returned exactly if the client may refresh and, for OpenID Connect, offline
      access was approved; and then any number of refreshes succeeds, each
      reporting the full approved scope unless it asked for less. */
  lemma ApprovedCodesWork(cfg: Config, w: World, issuer: string, client: Client, code: Token, a: Attempt,
                          rs: seq<Refresh>)
    requires SafeCode(cfg, issuer, client, code)
    requires code.hash in w.tokens && w.tokens[code.hash] == code
    requires TimelyExchange(cfg, w, issuer, client, code, a)
    requires cfg.Valid() && cfg.Registered(client, client.id)
    requires TimelyChain(cfg, Redeem(cfg, w, a).world, client, a.refresh, w.now, rs)
    ensures var o := Redeem(cfg, w, a);
      && o.result.Ok? && o.result.value.scope == Join(code.scopes)
      && (o.result.value.refreshToken.Some? <==>
            client.AllowsGrant(GRANT_REFRESH) && ("openid" in code.scopes ==> "offline_access" in code.scopes))
      && (o.result.value.refreshToken.Some? ==> AllServed(cfg, o.world, code.scopes, rs))
  {
    CodeMatches(cfg, w, issuer, client, code, a);
    ExchangeSucceeds(cfg, w, a);
    var o := Redeem(cfg, w, a);
    if o.result.value.refreshToken.Some? {
      RotationNeverEnds(cfg, o.world, client, a.refresh, w.now, rs);
    }
  }

  /** Claim release along a whole grant: UserInfo answers an access token of the grant
      with nothing but its scopes' claims and individually approved ones, all of them
      mapped from a scope the client was registered for at the approval. */
  lemma GrantReleaseBound(cfg: Config, issuer: string, client: Client, requested: Option<ClaimsRequest>,
                          approved: set<string>, code: Token, t: Token, all: map<string, Json>, n: string)
    requires SafeCode(cfg, issuer, client, code)
    requires code.claims.Some? ==>
      code.claims == Claims.Filtered(Claims.ClaimsForClient(cfg, client, requested), approved)
    requires t.kind == AccessToken && Interleaving.Belongs(t, Interleaving.IdentityOf(code))
    requires n in Claims.UserInfo(cfg, t, all) && n != "sub"
    ensures n in Claims.Mapped(cfg, t.scopes) || n in approved
    ensures n in Claims.Mapped(cfg, client.scopes) && n !in PROTOCOL_CLAIMS
  {
    assert SubsetOf(t.scopes, code.scopes);
    assert SubsetOf(code.scopes, client.scopes);
    Claims.ReleaseBound(cfg, client, requested, approved, t, all, n);
  }

  /** The code that an approval of a request decides on. */
  ghost predicate Approved(cfg: Config, c: Contents, issuer: string, registry: map<string, Client>, binding: string,
                           req: AuthorizationRequest, a: Approval, now: Time, code: Token, client: Client) {
    var done := Completable(cfg, c, issuer, registry, binding, req, true, now);
    && done.Ok? && client == done.value.0
    && CodeFor(cfg, issuer, client, done.value.1, a, now, code.hash, code.grantID) == Ok(code)
  }

  /** From any edited request and approval to any access token, in every run: whatever
      was requested, approved, hooked, narrowed and refreshed after the code was
      stored, every access token of its grant has duplicate-free scopes and audience
      within those approved, and UserInfo releases nothing but the claims of its
      scopes and individually approved ones, all mapped from a scope the client was
      registered for at the approval. */
  lemma ApprovalBoundsEveryAccessToken(cfg: Config, s: Interleaving.State, c: Contents, issuer: string,
                                       registry: map<string, Client>, binding: string, req: AuthorizationRequest,
                                       a: Approval, now: Time, code: Token, client: Client,
                                       more: seq<Interleaving.Action>, h: Hash, all: map<string, Json>, n: string)
    requires cfg.Valid() && Guarantees.Reachable(cfg, s)
    requires Approved(cfg, c, issuer, registry, binding, req, a, now, code, client)
    requires Interleaving.Enabled(cfg, s, Interleaving.IssueCode(code))
    requires Interleaving.ValidRun(cfg, Interleaving.Next(cfg, s, Interleaving.IssueCode(code)), more)
    requires var end := Interleaving.Exec(cfg, Interleaving.Next(cfg, s, Interleaving.IssueCode(code)), more);
      h in end.tokens && end.tokens[h].grantID == code.grantID && end.tokens[h].kind == AccessToken
    ensures var t := Interleaving.Exec(cfg, Interleaving.Next(cfg, s, Interleaving.IssueCode(code)), more).tokens[h];
      && NoDup(t.scopes) && SubsetOf(t.scopes, a.scopes) && NoDup(t.audience) && SubsetOf(t.audience, a.audience)
      && (n in Claims.UserInfo(cfg, t, all) && n != "sub" ==>
            (n in Claims.Mapped(cfg, t.scopes) || n in a.claims) && n in Claims.Mapped(cfg, client.scopes))
  {
    AnyEditIsSafe(cfg, c, issuer, registry, binding, req, a, now, code.hash, code.grantID);
    Guarantees.ChainsPreserveTheCode(cfg, s, code, more, h);
    var t := Interleaving.Exec(cfg, Interleaving.Next(cfg, s, Interleaving.IssueCode(code)), more).tokens[h];
    var requested := if req.id != "" then c.requests[req.id].claims else req.claims;
    if n in Claims.UserInfo(cfg, t, all) && n != "sub" {
      GrantReleaseBound(cfg, issuer, client, requested, (set x | x in a.claims), code, t, all, n);
    }
  }
}
