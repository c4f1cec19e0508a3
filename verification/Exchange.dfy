/** Exchanging authorization codes and refresh tokens (token.go, pkce.go).

    Functions give the outcome of every operation on the value of the world the
    provider talks to; the methods of module `Tokens` perform them on a mutable
    store and are proved to have that outcome. */
module Exchange {
  import opened Basics
  import opened Records
  import opened Memory
  import opened Params
  import opened Issuance

  /** One interaction with the outside: the clock advances, and then the call
      fails without effect or is carried out. */
  datatype Turn = Turn(advance: nat, fails: bool)

  /** The tokens of a store, the clock, and what will happen at the coming
      interactions; once the script is used up, calls succeed at once. */
  datatype World = World(tokens: map<Hash, Token>, last: Option<Time>, now: Time, script: seq<Turn>)

  datatype Outcome<T> = Outcome(world: World, result: Result<T, Error>)

  predicate Fails(w: World) {
    w.script != [] && w.script[0].fails
  }

  function Tick(w: World): World {
    if w.script == [] then w else w.(now := w.now + w.script[0].advance, script := w.script[1..])
  }

  function Collected(w: World): World {
    if w.last == None || w.now - w.last.value >= MINUTE
    then w.(tokens := CollectTokens(w.tokens, w.now), last := Some(w.now))
    else w
  }

  function CreateToken(w: World, t: Token): Outcome<()> {
    if Fails(w) then Outcome(Tick(w), Err(ServerError))
    else
      var c := Collected(Tick(w));
      Outcome(c.(tokens := InsertToken(c.tokens, t)), if t.hash in c.tokens then Err(ServerError) else Ok(()))
  }

  function RevokeToken(w: World, h: Hash): World {
    if Fails(w) then Tick(w) else Tick(w).(tokens := w.tokens - {h})
  }

  // --- The checks of a token request ------------------------------------

  /** A token request of an authenticated client, together with what the outside
      contributes to it: the registration, the hook's result, the encoder's
      output and the random refresh token. Absent parameters are empty. */
  datatype Attempt = Attempt(
    issuer: string,
    client: Client,
    kind: Kind,
    value: Hash,
    redirectURI: string,
    verifier: string,
    scopes: Option<seq<string>>,
    hook: Option<HookResult>,
    access: Hash,
    refresh: Hash)

  datatype TokenResponse = TokenResponse(
    accessToken: Hash,
    expiresIn: int,
    refreshToken: Option<Hash>,
    scope: string,
    idToken: bool)

  function GrantOf(kind: Kind): string {
    if kind == AuthorizationCode then GRANT_CODE else GRANT_REFRESH
  }

  function VerifyPKCE(cfg: Config, code: Token, verifier: string): Option<Error> {
    if code.codeChallenge == "" then
      if verifier != "" then Some(InvalidGrant) else None
    else if |verifier| < 43 || |verifier| > 128 || !Unreserved(verifier) then Some(InvalidGrant)
    else if cfg.s256(verifier) != code.codeChallenge then Some(InvalidGrant)
    else None
  }

  /** The checks that precede reuse detection. */
  function PreCheck(cfg: Config, t: Token, a: Attempt): Option<Error> {
    if a.kind != AuthorizationCode then None
    else if (a.redirectURI != "" || (t.redirectURIInRequest && t.codeChallenge == "")) && a.redirectURI != t.redirectURI
    then Some(InvalidGrant)
    else VerifyPKCE(cfg, t, a.verifier)
  }

  ghost function NarrowScopes(allowed: seq<string>, requested: Option<seq<string>>): Result<seq<string>, Error> {
    if requested == None then Ok(allowed)
    else if SubsetOf(requested.value, allowed) then Ok(Dedup(requested.value))
    else Err(InvalidScope)
  }

  ghost function CheckClientGrant(client: Client, grant: Token): Option<Error> {
    if !SubsetOf(grant.scopes, client.scopes) then Some(InvalidScope)
    else if !SubsetOf(grant.audience, client.audience) then Some(InvalidGrant)
    else None
  }

  predicate WithRefresh(a: Attempt, t: Token) {
    if a.kind == AuthorizationCode
    then a.client.AllowsGrant(GRANT_REFRESH) && ("openid" !in t.scopes || "offline_access" in t.scopes)
    else true
  }

  /** The checks and the planning that follow reuse detection; the two grants
      make the first two checks in a different order. */
  ghost function PlanAttempt(cfg: Config, t: Token, a: Attempt): Result<Plan, Error> {
    var denied := CheckClientGrant(a.client, t);
    var narrowed := NarrowScopes(t.scopes, a.scopes);
    if a.kind == AuthorizationCode && denied.Some? then Err(denied.value)
    else if narrowed.Err? then Err(narrowed.error)
    else if denied.Some? then Err(denied.value)
    else Planned(cfg, a.client, t.audience, narrowed.value, WithRefresh(a, t), a.hook)
  }

  // --- Minting ------------------------------------------------------------

  function Derive(grant: Token, value: Hash, kind: Kind, scopes: seq<string>, now: Time): Token {
    grant.(hash := value, kind := kind, scopes := scopes,
      redirectURI := "", redirectURIInRequest := false, nonce := "",
      codeChallenge := "", codeChallengeMethod := "",
      createdAt := now, consumedAt := None, accessTokenClaims := map[])
  }

  function AccessRecord(grant: Token, plan: Plan, value: Hash, now: Time): Token {
    Derive(grant, value, AccessToken, plan.scopes, now).(
      audience := plan.audience, accessTokenClaims := plan.accessClaims, expiresAt := now + plan.accessLifetime)
  }

  function RefreshRecord(grant: Token, plan: Plan, value: Hash, now: Time): Token {
    Derive(grant, value, RefreshToken, grant.scopes, now).(expiresAt := now + plan.refreshLifetime)
  }

  function Minted(grant: Token, plan: Plan, access: Hash, refresh: Hash, now: Time): seq<Token> {
    [AccessRecord(grant, plan, access, now)] +
    (if plan.refresh then [RefreshRecord(grant, plan, refresh, now)] else [])
  }

  /** What the records for a plan are: an access token and, if it is planned, a refresh
      token, of the same grant, each with its own lifetime. */
  ghost predicate RecordsFor(t: Token, plan: Plan, a: Attempt, at: Time, rs: seq<Token>) {
    && |rs| == (if plan.refresh then 2 else 1)
    && (forall i :: 0 <= i < |rs| ==>
          && rs[i].grantID == t.grantID && rs[i].issuer == t.issuer && rs[i].clientID == t.clientID
          && rs[i].subject == t.subject && rs[i].claims == t.claims && rs[i].createdAt == at
          && rs[i].consumedAt == None)
    && rs[0].hash == a.access && rs[0].kind == AccessToken && rs[0].scopes == plan.scopes
    && rs[0].audience == plan.audience && rs[0].accessTokenClaims == plan.accessClaims
    && rs[0].expiresAt - at == plan.accessLifetime
    && (plan.refresh ==>
          && rs[1].hash == a.refresh && rs[1].kind == RefreshToken && rs[1].scopes == t.scopes
          && rs[1].audience == t.audience && rs[1].accessTokenClaims == map[]
          && rs[1].expiresAt - at == plan.refreshLifetime)
  }

  function Response(a: Attempt, t: Token, plan: Plan): TokenResponse {
    TokenResponse(a.access, plan.accessLifetime / SECOND,
      if plan.refresh then Some(a.refresh) else None,
      Join(plan.scopes),
      "openid" in (if a.kind == AuthorizationCode then t.scopes else plan.scopes) && t.subject != "")
  }

  // --- Storing and consuming ----------------------------------------------

  function StoreTokens(w: World, records: seq<Token>): Outcome<()>
    decreases records
  {
    if records == [] then Outcome(w, Ok(()))
    else
      var o := CreateToken(w, records[0]);
      if o.result.Err? then o else StoreTokens(o.world, records[1..])
  }

  function DiscardTokens(w: World, records: seq<Token>): World
    decreases records
  {
    if records == [] then w else DiscardTokens(RevokeToken(w, records[0].hash), records[1..])
  }

  function RevokeReusedGrant(w: World, t: Token): Outcome<()> {
    if Fails(w) then Outcome(Tick(w), Err(ServerError))
    else Outcome(Tick(w).(tokens := WithoutGrant(w.tokens, t.grantID)), Err(InvalidGrant))
  }

  function Consume(w: World, h: Hash): Outcome<()> {
    if Fails(w) then Outcome(Tick(w), Err(ServerError))
    else if h !in w.tokens then Outcome(Tick(w), Err(InvalidGrant))
    else if w.tokens[h].consumedAt.Some? then RevokeReusedGrant(Tick(w), w.tokens[h])
    else Outcome(Tick(w).(tokens := Consumed(w.tokens, h, Tick(w).now)), Ok(()))
  }

  function StoreAndConsume(w: World, records: seq<Token>, h: Hash): Outcome<()> {
    var stored := StoreTokens(w, records);
    if stored.result.Err? then Outcome(DiscardTokens(stored.world, records), stored.result)
    else
      var consumed := Consume(stored.world, h);
      if consumed.result.Err? then Outcome(DiscardTokens(consumed.world, records), consumed.result)
      else consumed
  }

  function SingleUseToken(w: World, a: Attempt): Outcome<Token> {
    if Fails(w) then Outcome(Tick(w), Err(ServerError))
    else if a.value !in w.tokens then Outcome(Tick(w), Err(InvalidGrant))
    else
      var t := w.tokens[a.value];
      if t.kind != a.kind || t.issuer != a.issuer || t.clientID != a.client.id then Outcome(Tick(w), Err(InvalidGrant))
      else Outcome(Tick(w), Ok(t))
  }

  function CheckUnused(w: World, t: Token): Outcome<()> {
    if t.consumedAt.Some? then RevokeReusedGrant(w, t)
    else if !t.Unexpired(w.now) then Outcome(w, Err(InvalidGrant))
    else Outcome(w, Ok(()))
  }

  /** From the unused token on: plan, mint, store, consume. Running the encoder
      and signing is one interaction, which may fail. */
  ghost function Issue(cfg: Config, w: World, t: Token, a: Attempt): Outcome<TokenResponse> {
    var planned := PlanAttempt(cfg, t, a);
    if planned.Err? then Outcome(w, Err(planned.error))
    else if Fails(w) || a.access == "" then Outcome(Tick(w), Err(ServerError))
    else
      var m := Tick(w);
      var done := StoreAndConsume(m, Minted(t, planned.value, a.access, a.refresh, m.now), a.value);
      Outcome(done.world,
        if done.result.Err? then Err(done.result.error) else Ok(Response(a, t, planned.value)))
  }

  ghost function Redeem(cfg: Config, w: World, a: Attempt): Outcome<TokenResponse> {
    if !a.client.AllowsGrant(GrantOf(a.kind)) then Outcome(w, Err(UnauthorizedClient))
    else if a.value == "" then Outcome(w, Err(InvalidRequest))
    else
      var loaded := SingleUseToken(w, a);
      if loaded.result.Err? then Outcome(loaded.world, Err(loaded.result.error))
      else
        var t := loaded.result.value;
        if PreCheck(cfg, t, a).Some? then Outcome(loaded.world, Err(PreCheck(cfg, t, a).value))
        else
          var used := CheckUnused(loaded.world, t);
          if used.result.Err? then Outcome(used.world, Err(used.result.error))
          else Issue(cfg, used.world, t, a)
  }

  // --- Revocation ------------------------------------------------------------

  /** A client asks for a token to be revoked (revoke.go). */
  function ServeRevocation(w: World, issuer: string, clientID: string, h: Hash): Outcome<()> {
    if h == "" then Outcome(w, Err(InvalidRequest))
    else if Fails(w) then Outcome(Tick(w), Err(ServerError))
    else if h !in w.tokens || w.tokens[h].issuer != issuer || w.tokens[h].kind == AuthorizationCode
      then Outcome(Tick(w), Ok(()))
    else if w.tokens[h].clientID != clientID then Outcome(Tick(w), Err(UnauthorizedClient))
    else
      var u := Tick(w);
      Outcome(
        if Fails(u) then Tick(u)
        else if w.tokens[h].kind == RefreshToken then Tick(u).(tokens := WithoutGrant(u.tokens, w.tokens[h].grantID))
        else Tick(u).(tokens := u.tokens - {h}),
        if Fails(u) then Err(ServerError) else Ok(()))
  }
}
