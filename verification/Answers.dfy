/** Who is answered about a stored token, and with what: token validation
    (validate.go), introspection (introspect.go) and UserInfo (userinfo.go), and how
    these answers agree with what the token can still be used for. */
module Answers {
  import opened Basics
  import opened Records
  import opened Memory
  import opened Reads
  import opened Params
  import opened Claims
  import opened Issuance
  import opened Exchange
  import opened AccessTokens
  import opened EndToEnd

  // --- Who is answered ---------------------------------------------------------------

  /** An access token is valid at its issuer until it expires, while it is stored. */
  lemma ValidatedExactly(c: Contents, issuer: string, h: Hash, now: Time)
    ensures var r := ActiveAccessToken(c, issuer, h, now);
      && (r.Some? <==> h in c.tokens && c.tokens[h].kind == AccessToken && c.tokens[h].issuer == issuer
                       && now < c.tokens[h].expiresAt)
      && (r.Some? ==> r.value == c.tokens[h])
  {
  }

  /** Introspection tells the client a token was issued to, and clients that may
      introspect any, about stored tokens of the issuer that have not expired: access
      tokens, and refresh tokens that have not been used. Codes are never reported. */
  lemma IntrospectedExactly(c: Contents, issuer: string, client: string, allowAll: bool, h: Hash, now: Time)
    ensures var r := Introspected(c, issuer, client, allowAll, h, now);
      && (r.Some? <==>
            && h in c.tokens
            && var t := c.tokens[h];
               && (client == t.clientID || allowAll) && t.issuer == issuer && now < t.expiresAt
               && t.kind != AuthorizationCode && (t.kind == RefreshToken ==> t.consumedAt == None))
      && (r.Some? ==> r.value == c.tokens[h])
  {
  }

  /** Introspection agrees with use: an access token is reported to its client exactly
      while it validates, and a refresh token exactly while an exchange by the client
      would find it usable. */
  lemma IntrospectionAgreesWithUse(cfg: Config, c: Contents, w: World, a: Attempt, h: Hash)
    requires w.tokens == c.tokens && h in c.tokens && h != ""
    requires a.kind == RefreshToken && a.value == h && a.client.id == c.tokens[h].clientID
    ensures c.tokens[h].kind == AccessToken ==>
      Introspected(c, a.issuer, a.client.id, false, h, w.now) == ActiveAccessToken(c, a.issuer, h, w.now)
    ensures c.tokens[h].kind == RefreshToken ==>
      (Introspected(c, a.issuer, a.client.id, false, h, Tick(w).now).Some? <==> Presented(cfg, w, a))
  {
  }

  /** UserInfo answers valid access tokens of an end-user with the openid scope; others
      are told apart by whether the token is valid. */
  lemma UserInfoAnsweredExactly(c: Contents, issuer: string, h: Hash, now: Time)
    ensures var r := UserInfoToken(c, issuer, h, now);
      && (r == Err(InvalidToken) <==> ActiveAccessToken(c, issuer, h, now) == None)
      && (r.Ok? <==>
            && ActiveAccessToken(c, issuer, h, now).Some?
            && "openid" in c.tokens[h].scopes && c.tokens[h].subject != "")
      && (r.Ok? ==> r.value == c.tokens[h])
  {
  }

  // --- With what ------------------------------------------------------------------------

  /** The UserInfo response names the end-user, and has exactly the claims the provider
      knows that a scope of the token maps to or that were approved individually,
      without null values and protocol claims. */
  lemma UserInfoExactly(cfg: Config, t: Token, all: map<string, Json>, n: string)
    ensures var r := UserInfo(cfg, t, all);
      && "sub" in r && r["sub"] == Json.Str(t.subject)
      && (n != "sub" ==>
            (n in r <==>
              && n in all && all[n] != Null && n !in PROTOCOL_CLAIMS
              && (n in UserInfoPart(t.claims) || exists s :: s in t.scopes && n in ScopeClaims(cfg, s))))
      && (n != "sub" && n in r ==> r[n] == all[n])
  {
  }

  /** The list a value stands for: a single audience is written as a string. */
  function ListRead(value: Json): seq<string> {
    match value
    case Str(s) => [s]
    case List(items) => seq(|items|, i requires 0 <= i < |items| => if items[i].Str? then items[i].s else "")
    case _ => []
  }

  lemma ListReadBack(list: seq<string>)
    ensures ListRead(AudienceValue(list)) == list && ListRead(AccessTokens.Strings(list)) == list
  {
  }

  /** Whole seconds, rounded down. */
  predicate Seconds(value: Option<Json>, t: Time) {
    value.Some? && value.value.Number? && value.value.n * SECOND <= t < (value.value.n + 1) * SECOND
  }

  /** A JWT access token names its issuer, client, end-user (without one, the client),
      audience and ID, and its times in whole seconds. */
  lemma JwtNames(at: Description)
    ensures JwtClaim(at, "iss") == Some(Json.Str(at.issuer)) && JwtClaim(at, "client_id") == Some(Json.Str(at.clientID))
    ensures JwtClaim(at, "sub") == Some(Json.Str(if at.subject != "" then at.subject else at.clientID))
    ensures JwtClaim(at, "jti") == Some(Json.Str(at.id))
    ensures JwtClaim(at, "aud").Some? && ListRead(JwtClaim(at, "aud").value) == at.audience
    ensures Seconds(JwtClaim(at, "exp"), at.expiresAt) && Seconds(JwtClaim(at, "iat"), at.issuedAt)
  {
    ListReadBack(at.audience);
  }

  /** It says how the end-user authenticated as far as that is known, and its scope
      reads back as the granted scopes. */
  lemma JwtAuthentication(at: Description)
    requires at.claims.Keys !! ACCESS_PROTECTED
    ensures JwtClaim(at, "acr") == (if at.acr != "" then Some(Json.Str(at.acr)) else None)
    ensures if at.authTime.Some? then Seconds(JwtClaim(at, "auth_time"), at.authTime.value)
      else JwtClaim(at, "auth_time") == None
    ensures if at.amr != [] then JwtClaim(at, "amr").Some? && ListRead(JwtClaim(at, "amr").value) == at.amr
      else JwtClaim(at, "amr") == None
  {
    ListReadBack(at.amr);
  }

  lemma JwtScope(at: Description)
    requires at.claims.Keys !! ACCESS_PROTECTED
    requires NoDup(at.scopes) && forall s :: s in at.scopes ==> ScopeToken(s)
    ensures if at.scopes == [] then JwtClaim(at, "scope") == None
      else JwtClaim(at, "scope").Some? && JwtClaim(at, "scope").value.Str?
           && Fields(JwtClaim(at, "scope").value.s) == at.scopes
  {
    ScopeListRoundTrip(at.scopes);
  }

  /** The response for a token says that it is active, and describes its record. */
  lemma ResponseNames(t: Token)
    ensures ResponseMember(t, "active") == Some(Json.Bool(true))
    ensures ResponseMember(t, "iss") == Some(Json.Str(t.issuer))
      && ResponseMember(t, "client_id") == Some(Json.Str(t.clientID))
    ensures ResponseMember(t, "sub") == (if t.subject != "" then Some(Json.Str(t.subject)) else None)
    ensures ResponseMember(t, "token_type") == (if t.kind == AccessToken then Some(Json.Str("Bearer")) else None)
    ensures if t.audience == [] then ResponseMember(t, "aud") == None
      else ResponseMember(t, "aud").Some? && ListRead(ResponseMember(t, "aud").value) == t.audience
    ensures Seconds(ResponseMember(t, "exp"), t.expiresAt) && Seconds(ResponseMember(t, "iat"), t.createdAt)
  {
    ListReadBack(t.audience);
  }

  lemma ResponseScope(t: Token)
    requires NoDup(t.scopes) && forall s :: s in t.scopes ==> ScopeToken(s)
    ensures if t.scopes == [] then ResponseMember(t, "scope") == None
      else ResponseMember(t, "scope").Some? && ResponseMember(t, "scope").value.Str?
           && Fields(ResponseMember(t, "scope").value.s) == t.scopes
  {
    ScopeListRoundTrip(t.scopes);
  }
}
