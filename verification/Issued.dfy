/** What a successful exchange leaves in the store and tells the client, in terms of
    the token it redeemed, the request, the registration and the hook (token.go). */
module Issued {
  import opened Basics
  import opened Records
  import opened Params
  import opened Issuance
  import opened Exchange
  import opened Failures

  /** A derived token stays with the grant of the token it was issued for. */
  ghost predicate SameGrant(x: Token, t: Token) {
    && x.grantID == t.grantID && x.issuer == t.issuer && x.clientID == t.clientID && x.subject == t.subject
    && x.authTime == t.authTime && x.acr == t.acr && x.amr == t.amr && x.claims == t.claims
  }

  /** A new token is unused and carries nothing that only concerns its code. */
  ghost predicate Plain(x: Token) {
    && x.consumedAt == None && x.redirectURI == "" && !x.redirectURIInRequest && x.nonce == ""
    && x.codeChallenge == "" && x.codeChallengeMethod == ""
  }

  /** The scopes of the access token: those the hook chose, without a hook those the
      request asked for, and otherwise all of the grant's. */
  ghost predicate ScopesFor(a: Attempt, t: Token, scopes: seq<string>) {
    if a.hook.Some? then a.hook.value.Adjusts? && ListsExactly(scopes, a.hook.value.scopes)
    else if a.scopes.Some? then ListsExactly(scopes, a.scopes.value)
    else scopes == t.scopes
  }

  ghost predicate AudienceFor(a: Attempt, t: Token, audience: seq<string>) {
    if a.hook.Some? then a.hook.value.Adjusts? && ListsExactly(audience, a.hook.value.audience)
    else audience == t.audience
  }

  ghost predicate ClaimsFor(a: Attempt, claims: map<string, Json>) {
    if a.hook.Some? then a.hook.value.Adjusts? && NonNullEntries(claims, a.hook.value.accessClaims)
    else claims == map[]
  }

  /** Whether a refresh token is issued: a refresh always renews it, and a code gives
      one if the client may refresh and an OpenID grant includes offline access; a
      hook may decide against it. */
  ghost predicate Renewable(a: Attempt, t: Token) {
    && (a.hook.Some? ==> a.hook.value.Adjusts? && a.hook.value.refresh)
    && (a.kind == AuthorizationCode ==>
          a.client.AllowsGrant(GRANT_REFRESH) && ("openid" in t.scopes ==> "offline_access" in t.scopes))
  }

  ghost predicate AccessTokenFor(cfg: Config, a: Attempt, t: Token, x: Token, at: Time) {
    && x.hash == a.access && x.kind == AccessToken && SameGrant(x, t) && Plain(x)
    && ScopesFor(a, t, x.scopes) && AudienceFor(a, t, x.audience) && ClaimsFor(a, x.accessTokenClaims)
    && x.createdAt == at
    && LifetimeFor(x.expiresAt - at, HookAccessLifetime(a.hook), a.client.accessTokenLifetime,
      cfg.lifetimes.accessToken)
  }

  ghost predicate RefreshTokenFor(cfg: Config, a: Attempt, t: Token, x: Token, at: Time) {
    && x.hash == a.refresh && x.kind == RefreshToken && SameGrant(x, t) && Plain(x)
    && x.scopes == t.scopes && x.audience == t.audience && x.accessTokenClaims == map[]
    && x.createdAt == at
    && LifetimeFor(x.expiresAt - at, HookRefreshLifetime(a.hook), a.client.refreshTokenLifetime,
         cfg.lifetimes.refreshToken)
  }

  /** The record is stored, unless it has expired and was collected. */
  ghost predicate StoredUntilExpiry(w: World, x: Token) {
    if x.hash in w.tokens then w.tokens[x.hash] == x else Collectable(w.now, x.expiresAt)
  }

  /** What the client is told: the values of the records, the scope, and the whole
      seconds of the access token's lifetime; an ID token comes with an OpenID grant
      of an end-user, on a refresh only if openid was asked for again. */
  ghost predicate Tells(a: Attempt, t: Token, access: Token, r: TokenResponse) {
    && r.accessToken == access.hash && r.scope == Join(access.scopes)
    && r.expiresIn * SECOND <= access.expiresAt - access.createdAt < (r.expiresIn + 1) * SECOND
    && r.refreshToken == (if Renewable(a, t) then Some(a.refresh) else None)
    && (r.idToken <==> t.subject != "" && "openid" in (if a.kind == AuthorizationCode then t.scopes else access.scopes))
  }

  // --- Storing ---------------------------------------------------------------------------

  lemma StillStored(w: World, v: World, x: Token, extra: set<Hash>)
    requires Kept(w, v, extra) && x.hash !in extra && StoredUntilExpiry(w, x)
    ensures StoredUntilExpiry(v, x)
  {
  }

  lemma {:induction false} StoredRecords(w: World, records: seq<Token>)
    requires StoreTokens(w, records).result.Ok? && NewRecords(w, records)
    ensures forall i :: 0 <= i < |records| ==> StoredUntilExpiry(StoreTokens(w, records).world, records[i])
    decreases records
  {
    if records != [] {
      var o, rest := CreateToken(w, records[0]), records[1..];
      CreateKeeps(w, records[0], {records[0].hash});
      assert NewRecords(o.world, rest) by {
        forall i | 0 <= i < |rest| ensures rest[i].hash !in o.world.tokens { assert rest[i] == records[i+1]; }
      }
      StoredRecords(o.world, rest);
      forall i | 0 <= i < |records| ensures StoredUntilExpiry(StoreTokens(w, records).world, records[i]) {
        if i == 0 {
          forall k | k in HashesOf(rest) ensures k != records[0].hash {
            HashesExact(rest);
            var j :| 0 <= j < |rest| && rest[j].hash == k;
            assert rest[j] == records[j+1];
          }
          HashesExact(rest);
          StoreKeeps(o.world, rest, HashesOf(rest));
          StillStored(o.world, StoreTokens(w, records).world, records[0], HashesOf(rest));
        } else {
          assert records[i] == rest[i-1];
        }
      }
    }
  }

  /** Storing and consuming: the records are stored, the token is used, and nothing
      else changed. */
  ghost predicate Redeems(w: World, v: World, h: Hash, records: seq<Token>) {
    && h in w.tokens && h in v.tokens && v.tokens[h] == w.tokens[h].(consumedAt := Some(v.now))
    && w.tokens[h].consumedAt == None && w.now <= v.now
    && (forall i :: 0 <= i < |records| ==> StoredUntilExpiry(v, records[i]))
    && (forall k :: k in v.tokens && k != h && k !in HashesOf(records) ==> k in w.tokens && v.tokens[k] == w.tokens[k])
    && (forall k :: k in w.tokens && k !in v.tokens ==> Collectable(v.now, w.tokens[k].expiresAt))
  }

  lemma Consuming(w: World, h: Hash)
    requires Consume(w, h).result.Ok?
    ensures var v := Consume(w, h).world;
      && h in w.tokens && w.tokens[h].consumedAt == None && w.now <= v.now
      && v.tokens == w.tokens[h := w.tokens[h].(consumedAt := Some(v.now))]
  {
  }

  /** From a stored world to one in which the token is consumed as well. */
  lemma StoredThenConsumed(w: World, s: World, v: World, records: seq<Token>, h: Hash)
    requires h in w.tokens && h !in HashesOf(records) && Kept(w, s, HashesOf(records))
    requires forall k :: k in HashesOf(records) ==> k !in w.tokens
    requires forall i :: 0 <= i < |records| ==> StoredUntilExpiry(s, records[i]) && records[i].hash != h
    requires h in s.tokens && s.tokens[h].consumedAt == None && s.now <= v.now
    requires v.tokens == s.tokens[h := s.tokens[h].(consumedAt := Some(v.now))]
    ensures Redeems(w, v, h, records)
  {
  }

  lemma StoreAndConsumeRedeems(w: World, records: seq<Token>, h: Hash)
    requires NewRecords(w, records) && h in w.tokens && StoreAndConsume(w, records, h).result.Ok?
    ensures Redeems(w, StoreAndConsume(w, records, h).world, h, records)
  {
    var s := StoreTokens(w, records).world;
    HashesExact(records);
    StoredRecords(w, records);
    StoreKeeps(w, records, HashesOf(records));
    Consuming(s, h);
    StoredThenConsumed(w, s, StoreAndConsume(w, records, h).world, records, h);
  }

  // --- The exchange --------------------------------------------------------------------------

  /** The plan of an accepted attempt, without the functions that compute it. */
  lemma PlanOfAttempt(cfg: Config, t: Token, a: Attempt, plan: Plan)
    requires cfg.Valid() && cfg.Registered(a.client, a.client.id) && PlanAttempt(cfg, t, a) == Ok(plan)
    ensures ScopesFor(a, t, plan.scopes) && AudienceFor(a, t, plan.audience) && ClaimsFor(a, plan.accessClaims)
    ensures plan.refresh <==> Renewable(a, t)
    ensures LifetimeFor(plan.accessLifetime, HookAccessLifetime(a.hook), a.client.accessTokenLifetime,
              cfg.lifetimes.accessToken)
    ensures LifetimeFor(plan.refreshLifetime, HookRefreshLifetime(a.hook), a.client.refreshTokenLifetime,
              cfg.lifetimes.refreshToken)
  {
    var scopes := NarrowScopes(t.scopes, a.scopes).value;
    PlannedLifetimes(cfg, a.client, t.audience, scopes, WithRefresh(a, t), a.hook);
    if a.hook.Some? {
      HookIsFollowed(cfg, a.client, t.audience, scopes, WithRefresh(a, t), a.hook.value);
      HookIsAcceptedExactly(cfg, a.client, t.audience, scopes, WithRefresh(a, t), a.hook.value);
    } else {
      NothingIsAddedWithoutHook(cfg, a.client, t.audience, scopes, WithRefresh(a, t));
    }
  }

  lemma MintedTokens(cfg: Config, t: Token, a: Attempt, plan: Plan, at: Time)
    requires cfg.Valid() && cfg.Registered(a.client, a.client.id) && PlanAttempt(cfg, t, a) == Ok(plan)
    requires a.kind != AccessToken
    ensures var rs := Minted(t, plan, a.access, a.refresh, at);
      && |rs| == (if Renewable(a, t) then 2 else 1)
      && AccessTokenFor(cfg, a, t, rs[0], at) && Tells(a, t, rs[0], Response(a, t, plan))
      && (Renewable(a, t) ==> RefreshTokenFor(cfg, a, t, rs[1], at))
  {
    PlanOfAttempt(cfg, t, a, plan);
  }

  /** The steps of a successful exchange: load, check, mint, store and consume. */
  lemma StepsOfSuccess(cfg: Config, w: World, a: Attempt)
    requires Redeem(cfg, w, a).result.Ok?
    ensures a.value in w.tokens && PlanAttempt(cfg, w.tokens[a.value], a).Ok?
    ensures var t, m := w.tokens[a.value], Tick(Tick(w));
      var plan := PlanAttempt(cfg, t, a).value;
      var o := StoreAndConsume(m, Minted(t, plan, a.access, a.refresh, m.now), a.value);
      && m.tokens == w.tokens && w.now <= m.now && t.kind == a.kind
      && o.result.Ok? && Redeem(cfg, w, a).world == o.world && Redeem(cfg, w, a).result.value == Response(a, t, plan)
  {
  }

  /** What the client gets, and what the store holds afterwards: the redeemed token is
      used up; the access token and, if the grant is renewable, the refresh token are
      stored as described above; every other token is as it was, unless it expired
      and was collected. `at` is when the tokens were made. */
  lemma SuccessfulExchange(cfg: Config, w: World, a: Attempt)
    returns (at: Time, access: Token, refresh: Option<Token>)
    requires cfg.Valid() && cfg.Registered(a.client, a.client.id) && a.kind != AccessToken
    requires FreshFor(w, a) && Redeem(cfg, w, a).result.Ok?
    ensures a.value in w.tokens
    ensures var v, t, r := Redeem(cfg, w, a).world, w.tokens[a.value], Redeem(cfg, w, a).result.value;
      && w.now <= at <= v.now && a.value in v.tokens && v.tokens[a.value] == t.(consumedAt := Some(v.now))
      && AccessTokenFor(cfg, a, t, access, at) && StoredUntilExpiry(v, access) && Tells(a, t, access, r)
      && (refresh.Some? <==> Renewable(a, t))
      && (refresh.Some? ==> RefreshTokenFor(cfg, a, t, refresh.value, at) && StoredUntilExpiry(v, refresh.value))
    ensures var v := Redeem(cfg, w, a).world;
      && (forall k :: k in v.tokens && k != a.value && k != a.access && (refresh.Some? ==> k != a.refresh) ==>
            k in w.tokens && v.tokens[k] == w.tokens[k])
      && (forall k :: k in w.tokens && k !in v.tokens ==> Collectable(v.now, w.tokens[k].expiresAt))
  {
    StepsOfSuccess(cfg, w, a);
    var t := w.tokens[a.value];
    var m := Tick(Tick(w));
    var plan := PlanAttempt(cfg, t, a).value;
    var records := Minted(t, plan, a.access, a.refresh, m.now);
    at := m.now;
    MintedTokens(cfg, t, a, plan, at);
    MintedNew(m, t, plan, a, at);
    HashesExact(records);
    StoreAndConsumeRedeems(m, records, a.value);
    assert HashesOf(records) == (if Renewable(a, t) then {a.access, a.refresh} else {a.access}) by {
      assert records == [records[0]] + (if Renewable(a, t) then [records[1]] else []);
    }
    access := records[0];
    refresh := if |records| == 2 then Some(records[1]) else None;
  }
}
