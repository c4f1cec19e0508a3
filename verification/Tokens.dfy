/** The token endpoint of the provider (token.go) as it runs: a store that may
    fail, and the exchange that loads, validates, mints, stores and consumes. */
module Tokens {
  import opened Basics
  import opened Records
  import opened Memory
  import opened Params
  import opened Issuance
  import opened Exchange

  /** A memory store whose calls may fail: the store of the provider. */
  class Backend {
    const store: Store
    var now: Time
    var script: seq<Turn>

    constructor (store: Store, now: Time, script: seq<Turn>)
      ensures this.store == store && this.now == now && this.script == script
    {
      this.store, this.now, this.script := store, now, script;
    }

    function Value(): World
      reads this, store
    {
      World(store.tokens, store.lastCollection, now, script)
    }

    method Next() returns (fails: bool)
      modifies this
      ensures Value() == Tick(old(Value())) && fails == Fails(old(Value()))
    {
      fails := false;
      if script != [] {
        fails := script[0].fails;
        now := now + script[0].advance;
        script := script[1..];
      }
    }

    method CreateToken(t: Token) returns (err: Option<Error>)
      modifies this, store
      ensures var o := Exchange.CreateToken(old(Value()), t);
        Value() == o.world && err == if o.result.Ok? then None else Some(o.result.error)
    {
      var fails := Next();
      if fails {
        return Some(ServerError);
      }
      var r := store.CreateToken(t, now);
      return if r.Ok? then None else Some(ServerError);
    }

    method RevokeToken(h: Hash) returns (fails: bool)
      modifies this, store
      ensures Value() == Exchange.RevokeToken(old(Value()), h) && fails == Fails(old(Value()))
    {
      fails := Next();
      if !fails {
        store.RevokeToken(h);
      }
    }
  }

  class Provider {
    const cfg: Config
    const backend: Backend

    constructor (cfg: Config, backend: Backend)
      ensures this.cfg == cfg && this.backend == backend
    {
      this.cfg, this.backend := cfg, backend;
    }

    method StoreTokens(records: seq<Token>) returns (err: Option<Error>)
      modifies backend, backend.store
      ensures var o := Exchange.StoreTokens(old(backend.Value()), records);
        backend.Value() == o.world && err == if o.result.Ok? then None else Some(o.result.error)
    {
      for i := 0 to |records|
        invariant Exchange.StoreTokens(backend.Value(), records[i..])
               == Exchange.StoreTokens(old(backend.Value()), records)
      {
        err := backend.CreateToken(records[i]);
        if err.Some? {
          return;
        }
      }
      return None;
    }

    method DiscardTokens(records: seq<Token>)
      modifies backend, backend.store
      ensures backend.Value() == Exchange.DiscardTokens(old(backend.Value()), records)
    {
      for i := 0 to |records|
        invariant Exchange.DiscardTokens(backend.Value(), records[i..])
               == Exchange.DiscardTokens(old(backend.Value()), records)
      {
        var failed := backend.RevokeToken(records[i].hash);
      }
    }

    method RevokeReusedGrant(t: Token) returns (err: Error)
      modifies backend, backend.store
      ensures var o := Exchange.RevokeReusedGrant(old(backend.Value()), t);
        backend.Value() == o.world && err == o.result.error
    {
      var fails := backend.Next();
      if fails {
        return ServerError;
      }
      backend.store.RevokeGrant(t.grantID);
      return InvalidGrant;
    }

    method Consume(h: Hash) returns (err: Option<Error>)
      modifies backend, backend.store
      ensures var o := Exchange.Consume(old(backend.Value()), h);
        backend.Value() == o.world && err == if o.result.Ok? then None else Some(o.result.error)
    {
      var fails := backend.Next();
      if fails {
        return Some(ServerError);
      }
      var r := backend.store.ConsumeToken(h, backend.now);
      if r.Err? {
        return Some(InvalidGrant);
      }
      if r.value.consumedAt.Some? {
        var e := RevokeReusedGrant(r.value);
        return Some(e);
      }
      return None;
    }

    method StoreAndConsume(records: seq<Token>, h: Hash) returns (err: Option<Error>)
      modifies backend, backend.store
      ensures var o := Exchange.StoreAndConsume(old(backend.Value()), records, h);
        backend.Value() == o.world && err == if o.result.Ok? then None else Some(o.result.error)
    {
      err := StoreTokens(records);
      if err.Some? {
        DiscardTokens(records);
        return;
      }
      err := Consume(h);
      if err.Some? {
        DiscardTokens(records);
        return;
      }
      return None;
    }

    method SingleUseToken(a: Attempt) returns (r: Result<Token, Error>)
      modifies backend
      ensures var o := Exchange.SingleUseToken(old(backend.Value()), a);
        backend.Value() == o.world && r == o.result
    {
      var fails := backend.Next();
      if fails {
        return Err(ServerError);
      }
      var t := backend.store.Token(a.value);
      if t.Err? {
        return Err(InvalidGrant);
      }
      if t.value.kind != a.kind || t.value.issuer != a.issuer || t.value.clientID != a.client.id {
        return Err(InvalidGrant);
      }
      return Ok(t.value);
    }

    method CheckUnused(t: Token) returns (err: Option<Error>)
      modifies backend, backend.store
      ensures var o := Exchange.CheckUnused(old(backend.Value()), t);
        backend.Value() == o.world && err == if o.result.Ok? then None else Some(o.result.error)
    {
      if t.consumedAt.Some? {
        var e := RevokeReusedGrant(t);
        return Some(e);
      }
      if !(backend.now < t.expiresAt) {
        return Some(InvalidGrant);
      }
      return None;
    }

    method NarrowScopes(allowed: seq<string>, requested: Option<seq<string>>) returns (r: Result<seq<string>, Error>)
      ensures r == Exchange.NarrowScopes(allowed, requested)
    {
      if requested == None {
        return Ok(allowed);
      }
      var out := Select(allowed, requested.value);
      return if out.Some? then Ok(out.value) else Err(InvalidScope);
    }

    method CheckClientGrant(client: Client, grant: Token) returns (err: Option<Error>)
      ensures err == Exchange.CheckClientGrant(client, grant)
    {
      for i := 0 to |grant.scopes|
        invariant forall k :: 0 <= k < i ==> grant.scopes[k] in client.scopes
      {
        if grant.scopes[i] !in client.scopes {
          return Some(InvalidScope);
        }
      }
      for i := 0 to |grant.audience|
        invariant forall k :: 0 <= k < i ==> grant.audience[k] in client.audience
      {
        if grant.audience[i] !in client.audience {
          return Some(InvalidGrant);
        }
      }
      return None;
    }

    method VerifyPKCE(code: Token, verifier: string) returns (err: Option<Error>)
      ensures err == Exchange.VerifyPKCE(cfg, code, verifier)
    {
      if code.codeChallenge == "" {
        return if verifier != "" then Some(InvalidGrant) else None;
      }
      var ok := IsUnreserved(verifier);
      if |verifier| < 43 || |verifier| > 128 || !ok {
        return Some(InvalidGrant);
      }
      return if cfg.s256(verifier) != code.codeChallenge then Some(InvalidGrant) else None;
    }

    /** mintTokens: the response, and the records in the order they will be stored. */
    method MintTokens(t: Token, plan: Plan, a: Attempt, withIDToken: bool)
      returns (r: Result<(TokenResponse, seq<Token>), Error>)
      modifies backend
      ensures backend.Value() == Tick(old(backend.Value()))
      ensures r == if Fails(old(backend.Value())) || a.access == "" then Err(ServerError)
        else Ok((Response(a, t, plan).(idToken := withIDToken && t.subject != ""),
                 Minted(t, plan, a.access, a.refresh, Tick(old(backend.Value())).now)))
      ensures r.Ok? ==>
        && RecordsFor(t, plan, a, Tick(old(backend.Value())).now, r.value.1)
        && r.value.0.accessToken == a.access && r.value.0.scope == Join(plan.scopes)
        && r.value.0.expiresIn == plan.accessLifetime / SECOND
        && r.value.0.refreshToken == (if plan.refresh then Some(a.refresh) else None)
        && (r.value.0.idToken <==> withIDToken && t.subject != "")
    {
      var fails := backend.Next();
      if fails || a.access == "" {
        return Err(ServerError);
      }
      var now := backend.now;
      var resp := TokenResponse(a.access, plan.accessLifetime / SECOND, None, Join(plan.scopes), false);
      var access := Derive(t, a.access, AccessToken, plan.scopes, now);
      access := access.(audience := plan.audience, accessTokenClaims := plan.accessClaims,
        expiresAt := now + plan.accessLifetime);
      var records := [access];
      if plan.refresh {
        var refresh := Derive(t, a.refresh, RefreshToken, t.scopes, now);
        refresh := refresh.(expiresAt := now + plan.refreshLifetime);
        records := records + [refresh];
        resp := resp.(refreshToken := Some(a.refresh));
      }
      if withIDToken && t.subject != "" {
        resp := resp.(idToken := true);
      }
      assert records == Minted(t, plan, a.access, a.refresh, now);
      return Ok((resp, records));
    }

    method ExchangeAuthorizationCode(a: Attempt) returns (r: Result<TokenResponse, Error>)
      requires a.kind == AuthorizationCode
      modifies backend, backend.store
      ensures var o := Redeem(cfg, old(backend.Value()), a);
        backend.Value() == o.world && r == o.result
    {
      if !a.client.AllowsGrant(GRANT_CODE) {
        return Err(UnauthorizedClient);
      }
      if a.value == "" {
        return Err(InvalidRequest);
      }
      var loaded := SingleUseToken(a);
      if loaded.Err? {
        return Err(loaded.error);
      }
      var t := loaded.value;
      if (a.redirectURI != "" || (t.redirectURIInRequest && t.codeChallenge == "")) && a.redirectURI != t.redirectURI {
        return Err(InvalidGrant);
      }
      var err := VerifyPKCE(t, a.verifier);
      if err.Some? {
        return Err(err.value);
      }
      err := CheckUnused(t);
      if err.Some? {
        return Err(err.value);
      }
      r := PlanAndIssueCode(t, a);
    }

    method PlanAndIssueCode(t: Token, a: Attempt) returns (r: Result<TokenResponse, Error>)
      requires a.kind == AuthorizationCode
      modifies backend, backend.store
      ensures var o := Exchange.Issue(cfg, old(backend.Value()), t, a);
        backend.Value() == o.world && r == o.result
    {
      var err := CheckClientGrant(a.client, t);
      if err.Some? {
        return Err(err.value);
      }
      var scopes := NarrowScopes(t.scopes, a.scopes);
      if scopes.Err? {
        return Err(scopes.error);
      }
      var withRefresh := a.client.AllowsGrant(GRANT_REFRESH) && ("openid" !in t.scopes || "offline_access" in t.scopes);
      var plan := PlanIssuance(cfg, a.client, t.audience, scopes.value, withRefresh, a.hook);
      if plan.Err? {
        return Err(plan.error);
      }
      var minted := MintTokens(t, plan.value, a, "openid" in t.scopes);
      if minted.Err? {
        return Err(minted.error);
      }
      err := StoreAndConsume(minted.value.1, a.value);
      return if err.Some? then Err(err.value) else Ok(minted.value.0);
    }

    method ExchangeRefreshToken(a: Attempt) returns (r: Result<TokenResponse, Error>)
      requires a.kind == RefreshToken
      modifies backend, backend.store
      ensures var o := Redeem(cfg, old(backend.Value()), a);
        backend.Value() == o.world && r == o.result
    {
      if !a.client.AllowsGrant(GRANT_REFRESH) {
        return Err(UnauthorizedClient);
      }
      if a.value == "" {
        return Err(InvalidRequest);
      }
      var loaded := SingleUseToken(a);
      if loaded.Err? {
        return Err(loaded.error);
      }
      var t := loaded.value;
      var err := CheckUnused(t);
      if err.Some? {
        return Err(err.value);
      }
      r := PlanAndIssueRefresh(t, a);
    }

    method PlanAndIssueRefresh(t: Token, a: Attempt) returns (r: Result<TokenResponse, Error>)
      requires a.kind == RefreshToken
      modifies backend, backend.store
      ensures var o := Exchange.Issue(cfg, old(backend.Value()), t, a);
        backend.Value() == o.world && r == o.result
    {
      var scopes := NarrowScopes(t.scopes, a.scopes);
      if scopes.Err? {
        return Err(scopes.error);
      }
      var err := CheckClientGrant(a.client, t);
      if err.Some? {
        return Err(err.value);
      }
      var plan := PlanIssuance(cfg, a.client, t.audience, scopes.value, true, a.hook);
      if plan.Err? {
        return Err(plan.error);
      }
      var minted := MintTokens(t, plan.value, a, "openid" in plan.value.scopes);
      if minted.Err? {
        return Err(minted.error);
      }
      err := StoreAndConsume(minted.value.1, a.value);
      return if err.Some? then Err(err.value) else Ok(minted.value.0);
    }

    /** serveRevocation, for the client that was authenticated. */
    method ServeRevocation(issuer: string, clientID: string, h: Hash) returns (err: Option<Error>)
      modifies backend, backend.store
      ensures var o := Exchange.ServeRevocation(old(backend.Value()), issuer, clientID, h);
        backend.Value() == o.world && err == if o.result.Ok? then None else Some(o.result.error)
    {
      if h == "" {
        return Some(InvalidRequest);
      }
      var fails := backend.Next();
      if fails {
        return Some(ServerError);
      }
      var t := backend.store.Token(h);
      if t.Err? || t.value.issuer != issuer || t.value.kind == AuthorizationCode {
        return None;
      }
      if t.value.clientID != clientID {
        return Some(UnauthorizedClient);
      }
      if t.value.kind == RefreshToken {
        fails := backend.Next();
        if !fails {
          backend.store.RevokeGrant(t.value.grantID);
        }
      } else {
        fails := backend.RevokeToken(h);
      }
      return if fails then Some(ServerError) else None;
    }
  }
}
