/** What an access token says about itself: the claims of JWT access tokens
    (accesstoken.go) and the introspection response (introspect.go). */
module AccessTokens {
  import opened Basics
  import opened Records
  import opened Params
  import opened Issuance
  import opened Exchange

  /** AccessToken, the description that encoders receive. */
  datatype Description = Description(
    id: string,
    issuer: string,
    clientID: string,
    subject: string,
    audience: seq<string>,
    scopes: seq<string>,
    authTime: Option<Time>,
    acr: string,
    amr: seq<string>,
    issuedAt: Time,
    expiresAt: Time,
    claims: map<string, Json>)

  /** What mintTokens describes for a grant and a plan. */
  function Describe(grant: Token, plan: Plan, id: string, now: Time): Description {
    Description(id, grant.issuer, grant.clientID, grant.subject, plan.audience, plan.scopes,
      grant.authTime, grant.acr, grant.amr, now, now + plan.accessLifetime, plan.accessClaims)
  }

  /** time.Time.Unix. */
  function Unix(t: Time): int { t / SECOND }

  function Strings(list: seq<string>): Json {
    List(seq(|list|, i requires 0 <= i < |list| => Str(list[i])))
  }

  /** One audience is a string, any other number a list. */
  function AudienceValue(audience: seq<string>): Json {
    if |audience| == 1 then Str(audience[0]) else Strings(audience)
  }

  /** The entry of a map under a name, if any. */
  function Lookup(m: map<string, Json>, name: string): Option<Json> {
    if name in m then Some(m[name]) else None
  }

  /** What is written over what was there. */
  function Override(own: Option<Json>, other: Option<Json>): Option<Json> {
    if own.Some? then own else other
  }

  /** The claim that the provider writes under the name only when it has a value. */
  function OptionalClaim(at: Description, name: string): Option<Json> {
    if name == "amr" then if at.amr != [] then Some(Strings(at.amr)) else None
    else if name == "acr" then if at.acr != "" then Some(Str(at.acr)) else None
    else if name == "auth_time" then if at.authTime.Some? then Some(Number(Unix(at.authTime.value))) else None
    else if name == "scope" then if at.scopes != [] then Some(Str(Join(at.scopes))) else None
    else None
  }

  /** The claim that the provider itself writes under the name in a JWT access token. */
  function ProtocolClaim(at: Description, name: string): Option<Json> {
    if OptionalClaim(at, name).Some? then OptionalClaim(at, name)
    else if name == "client_id" then Some(Str(at.clientID))
    else if name == "jti" then Some(Str(at.id))
    else if name == "iat" then Some(Number(Unix(at.issuedAt)))
    else if name == "exp" then Some(Number(Unix(at.expiresAt)))
    else if name == "aud" then Some(AudienceValue(at.audience))
    else if name == "sub" then Some(Str(if at.subject == "" then at.clientID else at.subject))
    else if name == "iss" then Some(Str(at.issuer))
    else None
  }

  /** The claim under a name in a JWT access token. */
  function JwtClaim(at: Description, name: string): Option<Json> {
    var own := ProtocolClaim(at, name);
    if own.Some? then own else Lookup(at.claims, name)
  }

  /** The member that the provider writes under the name only when it has a value. */
  function OptionalMember(t: Token, name: string): Option<Json> {
    if name == "token_type" then if t.kind == AccessToken then Some(Str("Bearer")) else None
    else if name == "sub" then if t.subject != "" then Some(Str(t.subject)) else None
    else if name == "scope" then if t.scopes != [] then Some(Str(Join(t.scopes))) else None
    else None
  }

  /** The member that the provider itself writes under the name in the response
      for a stored token. */
  function ProtocolMember(t: Token, name: string): Option<Json> {
    if OptionalMember(t, name).Some? then OptionalMember(t, name)
    else if name == "exp" then Some(Number(Unix(t.expiresAt)))
    else if name == "iat" then Some(Number(Unix(t.createdAt)))
    else if name == "iss" then Some(Str(t.issuer))
    else if name == "client_id" then Some(Str(t.clientID))
    else if name == "active" then Some(Bool(true))
    else if name == "aud" then if t.audience != [] then Some(AudienceValue(t.audience)) else None
    else None
  }

  /** The member under a name in the response for a stored token. */
  function ResponseMember(t: Token, name: string): Option<Json> {
    var own := ProtocolMember(t, name);
    if own.Some? then own
    else if name in ACCESS_PROTECTED then None
    else Lookup(t.accessTokenClaims, name)
  }

  // --- The maps as the source fills them ------------------------------------------

  method JwtAccessTokenClaims(at: Description) returns (claims: map<string, Json>)
    ensures forall n :: Lookup(claims, n) == JwtClaim(at, n)
  {
    claims := at.claims;
    claims := claims["iss" := Str(at.issuer)];
    claims := claims["sub" := Str(at.subject)];
    if at.subject == "" {
      claims := claims["sub" := Str(at.clientID)];
    }
    if |at.audience| == 1 {
      claims := claims["aud" := Str(at.audience[0])];
    } else {
      claims := claims["aud" := Strings(at.audience)];
    }
    claims := claims["exp" := Number(Unix(at.expiresAt))];
    claims := claims["iat" := Number(Unix(at.issuedAt))];
    claims := claims["jti" := Str(at.id)];
    claims := claims["client_id" := Str(at.clientID)];
    claims := AddOptionalClaims(at, claims);
  }

  method AddOptionalClaims(at: Description, base: map<string, Json>) returns (claims: map<string, Json>)
    ensures forall n :: Lookup(claims, n) == Override(OptionalClaim(at, n), Lookup(base, n))
  {
    claims := base;
    if |at.scopes| > 0 {
      claims := claims["scope" := Str(Join(at.scopes))];
    }
    if at.authTime.Some? {
      claims := claims["auth_time" := Number(Unix(at.authTime.value))];
    }
    if at.acr != "" {
      claims := claims["acr" := Str(at.acr)];
    }
    if |at.amr| > 0 {
      claims := claims["amr" := Strings(at.amr)];
    }
  }

  /** The response for a token that passed the test of Reads.Introspected. */
  method IntrospectionResponse(t: Token) returns (resp: map<string, Json>)
    ensures forall n :: Lookup(resp, n) == ResponseMember(t, n)
  {
    resp := map[];
    var pending := t.accessTokenClaims.Keys;
    while pending != {}
      invariant pending <= t.accessTokenClaims.Keys
      invariant resp ==
        map n | n in t.accessTokenClaims && n !in pending && n !in ACCESS_PROTECTED :: t.accessTokenClaims[n]
      decreases |pending|
    {
      var n :| n in pending;
      if n !in ACCESS_PROTECTED {
        resp := resp[n := t.accessTokenClaims[n]];
      }
      pending := pending - {n};
    }
    var base := resp;
    assert forall n :: Lookup(base, n) == if n in ACCESS_PROTECTED then None else Lookup(t.accessTokenClaims, n);
    resp := AddResponse(t, base);
  }

  method AddResponse(t: Token, base: map<string, Json>) returns (resp: map<string, Json>)
    ensures forall n :: Lookup(resp, n) == Override(ProtocolMember(t, n), Lookup(base, n))
  {
    resp := base;
    if |t.audience| == 1 {
      resp := resp["aud" := Str(t.audience[0])];
    } else if |t.audience| > 1 {
      resp := resp["aud" := Strings(t.audience)];
    }
    resp := resp["active" := Bool(true)];
    resp := resp["client_id" := Str(t.clientID)];
    resp := resp["iss" := Str(t.issuer)];
    resp := resp["iat" := Number(Unix(t.createdAt))];
    resp := resp["exp" := Number(Unix(t.expiresAt))];
    resp := AddOptionalMembers(t, resp);
  }

  method AddOptionalMembers(t: Token, base: map<string, Json>) returns (resp: map<string, Json>)
    ensures forall n :: Lookup(resp, n) == Override(OptionalMember(t, n), Lookup(base, n))
  {
    resp := base;
    if |t.scopes| > 0 {
      resp := resp["scope" := Str(Join(t.scopes))];
    }
    if t.subject != "" {
      resp := resp["sub" := Str(t.subject)];
    }
    if t.kind == AccessToken {
      resp := resp["token_type" := Str("Bearer")];
    }
  }

  // --- What holds of them -------------------------------------------------------------

  /** The claims of a JWT are the disjoint union of the hook's claims and the
      protocol claims: neither hides any of the other. */
  lemma JwtIsDisjointUnion(at: Description, name: string)
    requires at.claims.Keys !! ACCESS_PROTECTED
    ensures name in at.claims ==> JwtClaim(at, name) == Some(at.claims[name])
    ensures name !in at.claims ==> JwtClaim(at, name) == ProtocolClaim(at, name)
    ensures ProtocolClaim(at, name).Some? ==> name !in at.claims && name in ACCESS_PROTECTED
  {
  }

  /** The names under which a JWT and the response for its record differ: a response
      has active and token_type, and a JWT its own ID, how the end-user authenticated
      and a subject even without an end-user. */
  predicate Differ(grant: Token, name: string) {
    || name == "active" || name == "token_type" || name == "jti"
    || (name == "auth_time" && grant.authTime.Some?)
    || (name == "acr" && grant.acr != "")
    || (name == "amr" && grant.amr != [])
    || (name == "sub" && grant.subject == "")
  }

  /** A JWT access token and the introspection of its record have the same claims
      with the same values, under exactly the names that are not in Differ. */
  lemma JwtAndIntrospectionAgree(grant: Token, plan: Plan, id: string, h: Hash, now: Time, name: string)
    requires plan.accessClaims.Keys !! ACCESS_PROTECTED && plan.audience != []
    ensures var claim := JwtClaim(Describe(grant, plan, id, now), name);
      claim == ResponseMember(AccessRecord(grant, plan, h, now), name) <==> !Differ(grant, name)
  {
    var at, t := Describe(grant, plan, id, now), AccessRecord(grant, plan, h, now);
    JwtIsDisjointUnion(at, name);
    if name in at.claims {
      assert ProtocolMember(t, name) == None;
    } else {
      ProtocolsAgree(at, t, grant, name);
      assert ResponseMember(t, name) == ProtocolMember(t, name);
    }
  }

  lemma ProtocolsAgree(at: Description, t: Token, grant: Token, name: string)
    requires at.issuer == t.issuer && at.clientID == t.clientID && at.subject == t.subject && at.audience == t.audience
    requires at.scopes == t.scopes && at.issuedAt == t.createdAt && at.expiresAt == t.expiresAt && t.audience != []
    requires at.authTime == grant.authTime && at.acr == grant.acr && at.amr == grant.amr
    requires t.subject == grant.subject && t.kind == AccessToken
    ensures ProtocolClaim(at, name) == ProtocolMember(t, name) <==> !Differ(grant, name)
  {
  }

  /** expires_in, exp and iat count whole seconds of one lifetime, and exp never
      promises more than the record. */
  lemma LifetimesAgree(a: Attempt, grant: Token, plan: Plan, id: string, now: Time)
    ensures var at, t := Describe(grant, plan, id, now), AccessRecord(grant, plan, a.access, now);
      var expiresIn := Response(a, grant, plan).expiresIn;
      && expiresIn <= Unix(at.expiresAt) - Unix(at.issuedAt) <= expiresIn + 1
      && Unix(at.expiresAt) * SECOND <= t.expiresAt < (Unix(at.expiresAt) + 1) * SECOND
  {
  }
}
