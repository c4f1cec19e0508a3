/** Authorization requests: parsing them and checking them again
    (authorize.go, pkce.go, params.go, approve.go). */
module Authorization {
  import opened Basics
  import opened Records
  import opened Params
  import opened Claims

  const MODE_QUERY := "query"
  const MODE_FRAGMENT := "fragment"
  const MODE_FORM_POST := "form_post"
  const MAX_PARAM_LENGTH := 8000
  const MAX_MAX_AGE := 10 * 365 * 24 * 60 * 60
  const MAX_EXTRA_PARAMS := 32
  const MAX_EXTRA_LENGTH := 1024

  const AUTHORIZATION_PARAMS: set<string> := {
    "response_type", "client_id", "redirect_uri", "scope", "state", "response_mode", "code_challenge",
    "code_challenge_method", "nonce", "display", "prompt", "max_age", "ui_locales", "claims_locales",
    "id_token_hint", "login_hint", "acr_values", "claims", "request", "request_uri"}

  const CREDENTIAL_PARAMS: set<string> := {"client_secret", "client_assertion", "client_assertion_type"}

  const EXCLUDED_EXTRA_PARAMS: set<string> := {
    "client_secret", "client_assertion", "client_assertion_type", "code_verifier", "password",
    "access_token", "refresh_token"}

  /** Request parameters: the first non-empty value of each name, and the names
      that were repeated. */
  datatype Parameters = Parameters(values: map<string, string>, repeated: set<string>)
  {
    function Get(name: string): string {
      if name in values then values[name] else ""
    }

    predicate Has(name: string) { name in values }
  }

  /** What decoders outside this model make of parameter values: JSON claims, a
      verified id_token_hint, a decimal max_age, and the unverified hints of a
      request object. None stands for a value that is not valid. */
  datatype Decoded = Decoded(
    claims: Option<ClaimsRequest>,
    hintSubject: Option<string>,
    maxAge: Option<int>,
    objectMode: string,
    objectState: string)

  datatype Target = Target(redirectURI: string, mode: string, state: string)

  // --- The checks every request must pass ---------------------------------------

  predicate CheckDelivery(cfg: Config, issuer: string, client: Client, req: AuthorizationRequest) {
    && req.issuer == issuer
    && req.clientID == client.id
    && MatchRedirectURI(cfg, client, req.redirectURI)
    && (req.responseMode == MODE_QUERY || req.responseMode == MODE_FRAGMENT
        || (req.responseMode == MODE_FORM_POST && cfg.isHTTPURL(req.redirectURI)))
  }

  /** Whether the client's PKCE policy allows a request without a challenge. */
  predicate PolicyAllows(client: Client, scopes: seq<string>, nonce: string) {
    match client.PkcePolicy()
    case Optional => true
    case UnlessNonce => "openid" in scopes && nonce != ""
    case _ => false
  }

  predicate WellFormedChallenge(challenge: string, transform: string) {
    transform == "S256" && |challenge| == 43 && Unreserved(challenge)
  }

  predicate CheckChallenge(client: Client, req: AuthorizationRequest) {
    if req.codeChallenge == "" then req.codeChallengeMethod == "" && PolicyAllows(client, req.scopes, req.nonce)
    else WellFormedChallenge(req.codeChallenge, req.codeChallengeMethod)
  }

  ghost predicate CheckScopes(client: Client, scopes: seq<string>) {
    forall s :: s in scopes ==> ScopeToken(s) && s in client.scopes
  }

  ghost predicate CheckRequest(cfg: Config, issuer: string, client: Client, req: AuthorizationRequest) {
    && CheckDelivery(cfg, issuer, client, req)
    && client.AllowsGrant(GRANT_CODE)
    && req.responseType == "code"
    && CheckScopes(client, req.scopes)
    && (req.pushed || !cfg.ParRequired(client))
    && SubsetOf(req.audience, client.audience)
    && CheckChallenge(client, req)
  }

  method RunCheckRequest(cfg: Config, issuer: string, client: Client, req: AuthorizationRequest) returns (ok: bool)
    ensures ok <==> CheckRequest(cfg, issuer, client, req)
  {
    if !CheckDelivery(cfg, issuer, client, req) || !client.AllowsGrant(GRANT_CODE) || req.responseType != "code" {
      return false;
    }
    for i := 0 to |req.scopes|
      invariant CheckScopes(client, req.scopes[..i])
    {
      var s := req.scopes[i];
      var valid := ValidScopeToken(s);
      if !valid || s !in client.scopes {
        assert s in req.scopes;
        return false;
      }
      assert req.scopes[..i+1] == req.scopes[..i] + [s];
    }
    assert req.scopes[..|req.scopes|] == req.scopes;
    if !req.pushed && cfg.ParRequired(client) {
      return false;
    }
    var selected := Select(client.audience, req.audience);
    return selected.Some? && CheckChallenge(client, req);
  }

  /** Nothing identifies the client to the token endpoint. */
  predicate PublicClient(client: Client) {
    client.authMethod == "none" || (client.authMethod == "" && !client.hasSecret && !client.hasJWKS)
  }

  /** Exactly which requests a client may make: to one of its redirect URIs in a mode
      that can reach it, for a code it may exchange, with well-formed scopes and
      audiences of its registration, pushed where that is required, and with an S256
      challenge, which only confidential clients whose policy says so may leave out. */
  lemma CheckedExactly(cfg: Config, issuer: string, client: Client, req: AuthorizationRequest)
    ensures CheckRequest(cfg, issuer, client, req) <==>
      && req.issuer == issuer && req.clientID == client.id && req.responseType == "code"
      && (exists u :: u in client.redirectURIs && (req.redirectURI == u || cfg.loopbackMatch(u, req.redirectURI)))
      && (req.responseMode == "query" || req.responseMode == "fragment"
          || (req.responseMode == "form_post" && cfg.isHTTPURL(req.redirectURI)))
      && ("authorization_code" in client.grantTypes || client.grantTypes == [])
      && (forall s :: s in req.scopes ==> ScopeToken(s) && s in client.scopes)
      && (forall x :: x in req.audience ==> x in client.audience)
      && (req.pushed || (cfg.par != Mandatory && !client.requirePushedRequests))
      && (if req.codeChallenge != "" then
            req.codeChallengeMethod == "S256" && |req.codeChallenge| == 43 && Unreserved(req.codeChallenge)
          else
            && req.codeChallengeMethod == "" && !PublicClient(client)
            && (client.pkce == Optional || (client.pkce == UnlessNonce && "openid" in req.scopes && req.nonce != "")))
  {
  }

  // --- Parsing --------------------------------------------------------------------

  /** authorizationTarget, for the client the request names (None if it is not
      registered). */
  function TargetOf(cfg: Config, client: Option<Client>, q: Parameters, d: Decoded): Option<(Client, Target)> {
    if "client_id" in q.repeated || "redirect_uri" in q.repeated || q.Get("client_id") == "" || client == None then None
    else
      var c := client.value;
      var asked :=
        if q.Get("response_mode") == "" && q.Get("request") != "" then d.objectMode else q.Get("response_mode");
      var state := if q.Get("state") == "" && q.Get("request") != "" then d.objectState else q.Get("state");
      var uri := q.Get("redirect_uri");
      if uri != "" && !MatchRedirectURI(cfg, c, uri) then None
      else if uri == "" && ("openid" in Fields(q.Get("scope")) || |c.redirectURIs| != 1) then None
      else
        var to := if uri != "" then uri else c.redirectURIs[0];
        var mode :=
          if "response_mode" in q.repeated then MODE_QUERY
          else if asked == MODE_QUERY || asked == MODE_FRAGMENT then asked
          else if asked == MODE_FORM_POST && cfg.isHTTPURL(to) then asked
          else MODE_QUERY;
        Some((c, Target(to, mode, state)))
  }

  /** The scopes of a request: those the client may request, the others ignored. */
  function Registered(scopes: seq<string>, client: Client): (r: seq<string>)
    ensures forall s :: s in r <==> s in scopes && s in client.scopes
    ensures NoDup(scopes) ==> NoDup(r)
  {
    if scopes == [] then []
    else
      var rest := Registered(scopes[..|scopes|-1], client);
      var s := scopes[|scopes|-1];
      if s in client.scopes then rest + [s] else rest
  }

  /** The end-user asked for with a sub claim request that has a value. */
  function SubValue(c: Option<ClaimsRequest>): Option<Json> {
    if c.Some? && "sub" in c.value.idToken && c.value.idToken["sub"].Some? && c.value.idToken["sub"].value.value != Null
    then Some(c.value.idToken["sub"].value.value) else None
  }

  function ParsedClaims(cfg: Config, client: Client, q: Parameters, d: Decoded): Option<ClaimsRequest> {
    if q.Get("claims") == "" then None else ClaimsForClient(cfg, client, d.claims)
  }

  function HintSubject(q: Parameters, d: Decoded): string {
    if q.Get("id_token_hint") != "" && d.hintSubject.Some? then d.hintSubject.value else ""
  }

  function RequestedSubject(cfg: Config, client: Client, q: Parameters, d: Decoded): string {
    match SubValue(ParsedClaims(cfg, client, q, d))
    case Some(Str(s)) => s
    case _ => HintSubject(q, d)
  }

  const PROMPTS: set<string> := {"none", "login", "consent", "select_account"}

  /** The fields that are copied from the target, the registration and the clock. */
  function Base(cfg: Config, issuer: string, client: Client, q: Parameters, target: Target, pushed: bool, now: Time):
    AuthorizationRequest
  {
    AuthorizationRequest("", issuer, client.id, target.redirectURI, q.Has("redirect_uri"), "code", target.mode,
      target.state, [], "", "", q.Get("nonce"), [], None, "", None, client.audience, pushed, map[], "", true, "", false,
      now, now + cfg.lifetimes.authorizationRequest)
  }

  /** The request that is returned, apart from Extra. */
  function Parsed(cfg: Config, issuer: string, client: Client, q: Parameters, d: Decoded, target: Target, pushed: bool,
                  now: Time): AuthorizationRequest {
    Base(cfg, issuer, client, q, target, pushed, now).(
      scopes := Registered(Fields(q.Get("scope")), client),
      codeChallenge := q.Get("code_challenge"),
      codeChallengeMethod := if q.Get("code_challenge") == "" then "" else q.Get("code_challenge_method"),
      prompt := Fields(q.Get("prompt")),
      maxAge := if q.Get("max_age") == "" || d.maxAge == None then None else Some(d.maxAge.value * SECOND),
      claims := ParsedClaims(cfg, client, q, d),
      requestedSubject := RequestedSubject(cfg, client, q, d))
  }

  ghost predicate LengthsOK(q: Parameters) {
    forall name :: name in q.values && name !in CREDENTIAL_PARAMS ==> |q.values[name]| <= MAX_PARAM_LENGTH
  }

  predicate ChallengeParamsOK(client: Client, q: Parameters, scopes: seq<string>) {
    if q.Get("code_challenge") == ""
    then q.Get("code_challenge_method") == "" && PolicyAllows(client, scopes, q.Get("nonce"))
    else WellFormedChallenge(q.Get("code_challenge"), q.Get("code_challenge_method"))
  }

  predicate PromptsOK(prompt: seq<string>) {
    (forall v :: v in prompt ==> v in PROMPTS) && ("none" in prompt ==> |prompt| == 1)
  }

  predicate SubjectOK(cfg: Config, client: Client, q: Parameters, d: Decoded) {
    match SubValue(ParsedClaims(cfg, client, q, d))
    case None => true
    case Some(Str(s)) => s != "" && (HintSubject(q, d) == "" || HintSubject(q, d) == s)
    case Some(_) => false
  }

  /** The parameters that need no registered scopes, challenge or decoding. */
  ghost predicate Admissible(cfg: Config, client: Client, q: Parameters, target: Target, pushed: bool) {
    && q.repeated == {} && LengthsOK(q)
    && !q.Has("request") && !q.Has("request_uri")
    && (pushed || !cfg.ParRequired(client))
    && (q.Get("response_mode") == "" || q.Get("response_mode") == target.mode)
    && q.Get("response_type") == "code" && client.AllowsGrant(GRANT_CODE)
  }

  /** The OpenID Connect parameters. */
  predicate OpenIDParamsOK(cfg: Config, client: Client, q: Parameters, d: Decoded) {
    && PromptsOK(Fields(q.Get("prompt")))
    && (q.Get("max_age") != "" ==> d.maxAge.Some? && 0 <= d.maxAge.value <= MAX_MAX_AGE)
    && (q.Get("claims") != "" ==> d.claims.Some?)
    && (q.Get("id_token_hint") != "" ==> d.hintSubject.Some?)
    && SubjectOK(cfg, client, q, d)
  }

  /** Exactly the requests that parseAuthorizationRequest accepts. */
  ghost predicate Acceptable(cfg: Config, client: Client, q: Parameters, d: Decoded, target: Target, pushed: bool) {
    && Admissible(cfg, client, q, target, pushed)
    && (forall s :: s in Fields(q.Get("scope")) ==> ScopeToken(s))
    && ChallengeParamsOK(client, q, Registered(Fields(q.Get("scope")), client))
    && OpenIDParamsOK(cfg, client, q, d)
  }

  /** The error of a request that is not admissible. */
  ghost function Inadmissible(cfg: Config, client: Client, q: Parameters, target: Target, pushed: bool):
    (r: Option<Error>)
    ensures r == None <==> Admissible(cfg, client, q, target, pushed)
  {
    if q.repeated != {} || !LengthsOK(q) then Some(InvalidRequest)
    else if q.Has("request") then Some(Protocol("request_not_supported"))
    else if q.Has("request_uri") then Some(Protocol("request_uri_not_supported"))
    else if !pushed && cfg.ParRequired(client) then Some(InvalidRequest)
    else if q.Get("response_mode") !in {"", target.mode} then Some(InvalidRequest)
    else if q.Get("response_type") == "" then Some(InvalidRequest)
    else if q.Get("response_type") != "code" then Some(UnsupportedResponseType)
    else if !client.AllowsGrant(GRANT_CODE) then Some(UnauthorizedClient)
    else None
  }

  /** The error a request is rejected with. */
  ghost function Refusal(cfg: Config, client: Client, q: Parameters, d: Decoded, target: Target, pushed: bool):
    (r: Option<Error>)
    ensures r == None <==> Acceptable(cfg, client, q, d, target, pushed)
  {
    if Inadmissible(cfg, client, q, target, pushed).Some? then Inadmissible(cfg, client, q, target, pushed)
    else if exists s :: s in Fields(q.Get("scope")) && !ScopeToken(s) then Some(InvalidScope)
    else if !ChallengeParamsOK(client, q, Registered(Fields(q.Get("scope")), client)) then Some(InvalidRequest)
    else if !OpenIDParamsOK(cfg, client, q, d) then Some(InvalidRequest)
    else None
  }

  /** Which parameters may be kept in Extra. */
  predicate ExtraParam(q: Parameters, name: string) {
    name in q.values && name !in AUTHORIZATION_PARAMS && name !in EXCLUDED_EXTRA_PARAMS
      && |q.values[name]| <= MAX_EXTRA_LENGTH
  }

  /** All extension parameters are kept, or as many as there is room for: which
      ones is not determined. */
  ghost predicate ExtraOK(q: Parameters, extra: map<string, string>) {
    && (forall name :: name in extra ==> ExtraParam(q, name) && extra[name] == q.values[name])
    && |extra| <= MAX_EXTRA_PARAMS
    && (|extra| < MAX_EXTRA_PARAMS ==> forall name :: ExtraParam(q, name) ==> name in extra)
  }

  method CollectExtra(q: Parameters) returns (extra: map<string, string>)
    ensures ExtraOK(q, extra)
  {
    extra := map[];
    var pending := q.values.Keys;
    while pending != {}
      invariant pending <= q.values.Keys
      invariant forall name :: name in extra ==>
        ExtraParam(q, name) && extra[name] == q.values[name] && name !in pending
      invariant |extra| <= MAX_EXTRA_PARAMS
      invariant |extra| < MAX_EXTRA_PARAMS ==> forall name :: ExtraParam(q, name) && name !in pending ==> name in extra
      decreases |pending|
    {
      var name :| name in pending;
      if ExtraParam(q, name) && |extra| < MAX_EXTRA_PARAMS {
        extra := extra[name := q.values[name]];
      }
      pending := pending - {name};
    }
  }

  method LengthsFit(q: Parameters) returns (ok: bool)
    ensures ok <==> LengthsOK(q)
  {
    var pending := q.values.Keys;
    while pending != {}
      invariant pending <= q.values.Keys
      invariant forall name :: name in q.values.Keys - pending - CREDENTIAL_PARAMS ==>
        |q.values[name]| <= MAX_PARAM_LENGTH
      decreases |pending|
    {
      var name :| name in pending;
      if |q.values[name]| > MAX_PARAM_LENGTH && name !in CREDENTIAL_PARAMS {
        return false;
      }
      pending := pending - {name};
    }
    return true;
  }

  /** The scope loop: None if a scope token is malformed. */
  method RequestScopes(client: Client, list: seq<string>) returns (r: Option<seq<string>>)
    ensures r.Some? <==> forall s :: s in list ==> ScopeToken(s)
    ensures r.Some? ==> r.value == Registered(list, client)
  {
    var scopes: seq<string> := [];
    for i := 0 to |list|
      invariant forall k :: 0 <= k < i ==> ScopeToken(list[k])
      invariant scopes == Registered(list[..i], client)
    {
      var s := list[i];
      var valid := ValidScopeToken(s);
      if !valid {
        assert s in list;
        return None;
      }
      assert list[..i+1][..i] == list[..i];
      if s in client.scopes {
        scopes := scopes + [s];
      }
    }
    assert list[..|list|] == list;
    return Some(scopes);
  }

  method RunAdmissible(cfg: Config, client: Client, q: Parameters, target: Target, pushed: bool)
    returns (err: Option<Error>)
    ensures err == Inadmissible(cfg, client, q, target, pushed)
  {
    if q.repeated != {} {
      return Some(InvalidRequest);
    }
    var fit := LengthsFit(q);
    if !fit {
      return Some(InvalidRequest);
    }
    if q.Has("request") {
      return Some(Protocol("request_not_supported"));
    }
    if q.Has("request_uri") {
      return Some(Protocol("request_uri_not_supported"));
    }
    if !pushed && cfg.ParRequired(client) {
      return Some(InvalidRequest);
    }
    if q.Get("response_mode") != "" && q.Get("response_mode") != target.mode {
      return Some(InvalidRequest);
    }
    if q.Get("response_type") == "" {
      return Some(InvalidRequest);
    }
    if q.Get("response_type") != "code" {
      return Some(UnsupportedResponseType);
    }
    return if client.AllowsGrant(GRANT_CODE) then None else Some(UnauthorizedClient);
  }

  method ParseOpenID(cfg: Config, client: Client, q: Parameters, d: Decoded, req0: AuthorizationRequest)
    returns (r: Option<AuthorizationRequest>)
    requires req0.maxAge == None && req0.claims == None && req0.requestedSubject == ""
    ensures r.Some? <==> OpenIDParamsOK(cfg, client, q, d)
    ensures r.Some? ==> r.value == req0.(
      prompt := Fields(q.Get("prompt")),
      maxAge := if q.Get("max_age") == "" || d.maxAge == None then None else Some(d.maxAge.value * SECOND),
      claims := ParsedClaims(cfg, client, q, d),
      requestedSubject := RequestedSubject(cfg, client, q, d))
  {
    var prompt := SplitSpaces(q.Get("prompt"));
    if !PromptsOK(prompt) {
      return None;
    }
    var maxAge: Option<Duration> := None;
    if q.Get("max_age") != "" {
      if d.maxAge == None || d.maxAge.value < 0 || d.maxAge.value > MAX_MAX_AGE {
        return None;
      }
      maxAge := Some(d.maxAge.value * SECOND);
    }
    var claims: Option<ClaimsRequest> := None;
    if q.Get("claims") != "" {
      if d.claims == None {
        return None;
      }
      claims := ComputeClaimsForClient(cfg, client, d.claims);
    }
    var subject := "";
    if q.Get("id_token_hint") != "" {
      if d.hintSubject == None {
        return None;
      }
      subject := d.hintSubject.value;
    }
    var sub := SubValue(claims);
    if sub.Some? {
      if !sub.value.Str? || sub.value.s == "" || (subject != "" && subject != sub.value.s) {
        return None;
      }
      subject := sub.value.s;
    }
    return Some(req0.(prompt := prompt, maxAge := maxAge, claims := claims, requestedSubject := subject));
  }

  /** parseAuthorizationRequest. */
  method ParseAuthorizationRequest(cfg: Config, issuer: string, client: Client, q: Parameters, d: Decoded,
                                   target: Target, pushed: bool, now: Time)
    returns (r: Result<AuthorizationRequest, Error>)
    ensures (if r.Err? then Some(r.error) else None) == Refusal(cfg, client, q, d, target, pushed)
    ensures r.Ok? ==> ExtraOK(q, r.value.extra)
    ensures r.Ok? ==> ReadFrom(cfg, issuer, client, q, d, target, pushed, now, r.value)
    ensures r.Ok? ==> r.value.(extra := map[]) == Parsed(cfg, issuer, client, q, d, target, pushed, now)
  {
    var err := RunAdmissible(cfg, client, q, target, pushed);
    if err.Some? {
      return Err(err.value);
    }
    var extra := CollectExtra(q);
    var req := Base(cfg, issuer, client, q, target, pushed, now).(extra := extra);
    var list := SplitSpaces(q.Get("scope"));
    var scopes := RequestScopes(client, list);
    if scopes == None {
      return Err(InvalidScope);
    }
    req := req.(scopes := scopes.value);
    var ok;
    ok, req := ParsePKCE(client, q, req);
    if !ok {
      return Err(InvalidRequest);
    }
    var parsed := ParseOpenID(cfg, client, q, d, req);
    if parsed == None {
      return Err(InvalidRequest);
    }
    ParsedFields(cfg, issuer, client, q, d, target, pushed, now, parsed.value, "");
    return Ok(parsed.value);
  }

  method ParsePKCE(client: Client, q: Parameters, req0: AuthorizationRequest)
    returns (ok: bool, req: AuthorizationRequest)
    requires req0.codeChallenge == "" && req0.codeChallengeMethod == "" && req0.nonce == q.Get("nonce")
    ensures ok <==> ChallengeParamsOK(client, q, req0.scopes)
    ensures ok ==> req == req0.(codeChallenge := q.Get("code_challenge"),
      codeChallengeMethod := if q.Get("code_challenge") == "" then "" else q.Get("code_challenge_method"))
  {
    req := req0;
    var challenge, transform := q.Get("code_challenge"), q.Get("code_challenge_method");
    if challenge == "" {
      return transform == "" && PolicyAllows(client, req.scopes, req.nonce), req;
    }
    if transform != "S256" {
      return false, req;
    }
    var unreserved := IsUnreserved(challenge);
    if |challenge| != 43 || !unreserved {
      return false, req;
    }
    return true, req.(codeChallenge := challenge, codeChallengeMethod := transform);
  }

  // --- What parsing reads ----------------------------------------------------------------

  /** The end-user a request asks for: the value of a sub claim request, and otherwise
      the subject of the ID token that was given as a hint. */
  ghost predicate AsksFor(q: Parameters, d: Decoded, claims: Option<ClaimsRequest>, subject: string) {
    var hint := if q.Get("id_token_hint") != "" && d.hintSubject.Some? then d.hintSubject.value else "";
    var sub := IDTokenPart(claims);
    if "sub" in sub && sub["sub"].Some?
      && sub["sub"].value.value != Null then sub["sub"].value.value == Json.Str(subject)
    else subject == hint
  }

  /** Every field of an accepted request, in terms of its parameters and what they
      decode to, the target and the registration. */
  ghost predicate ReadFrom(cfg: Config, issuer: string, client: Client, q: Parameters, d: Decoded, target: Target,
                           pushed: bool, now: Time, req: AuthorizationRequest) {
    && req.id == "" && req.issuer == issuer && req.clientID == client.id
    && req.redirectURI == target.redirectURI && (req.redirectURIInRequest <==> "redirect_uri" in q.values)
    && req.responseType == "code" && req.responseMode == target.mode && req.state == target.state
    && NoDup(req.scopes) && (forall s :: s in req.scopes <==> s in Fields(q.Get("scope")) && s in client.scopes)
    && req.codeChallenge == q.Get("code_challenge")
    && req.codeChallengeMethod == (if req.codeChallenge == "" then "" else "S256")
    && req.nonce == q.Get("nonce") && req.prompt == Fields(q.Get("prompt"))
    && (if q.Get("max_age") == "" then req.maxAge == None
        else d.maxAge.Some? && req.maxAge == Some(d.maxAge.value * SECOND))
    && AsksFor(q, d, req.claims, req.requestedSubject)
    && (q.Get("claims") == "" ==> req.claims == None)
    && req.audience == client.audience && (req.pushed <==> pushed) && req.bindingHash == ""
    && req.parsed && req.pushedBy == "" && !req.redeemed
    && req.createdAt == now && req.expiresAt - now == cfg.lifetimes.authorizationRequest
  }

  /** Of the claims parameter exactly what the client may receive is read. */
  ghost predicate ReadsClaims(cfg: Config, client: Client, q: Parameters, d: Decoded, claims: Option<ClaimsRequest>,
                              n: string) {
    q.Get("claims") != "" ==>
      && (n in UserInfoPart(claims) <==> n in UserInfoPart(d.claims) && Receivable(cfg, client, n))
      && (n in UserInfoPart(claims) ==> UserInfoPart(claims)[n] == UserInfoPart(d.claims)[n])
      && (n in IDTokenPart(claims) <==> n in IDTokenPart(d.claims) && Receivable(cfg, client, n))
      && (n in IDTokenPart(claims) ==> IDTokenPart(claims)[n] == IDTokenPart(d.claims)[n])
  }

  /** An accepted request reads all of this, whatever extension parameters it has. */
  lemma ParsedFields(cfg: Config, issuer: string, client: Client, q: Parameters, d: Decoded, target: Target,
                     pushed: bool,
                     now: Time, req: AuthorizationRequest, n: string)
    requires Acceptable(cfg, client, q, d, target, pushed)
    requires req.(extra := map[]) == Parsed(cfg, issuer, client, q, d, target, pushed, now)
    ensures ReadFrom(cfg, issuer, client, q, d, target, pushed, now, req)
    ensures ReadsClaims(cfg, client, q, d, req.claims, n)
  {
    ClaimsForClientExactly(cfg, client, d.claims, n);
  }

  /** Where and how a response may be sent is known exactly if client_id and redirect_uri
      are not repeated, the client is registered, and the redirect URI is registered or,
      without openid, omitted by a client that has only one. */
  lemma TargetExactly(cfg: Config, client: Option<Client>, q: Parameters, d: Decoded)
    ensures var r := TargetOf(cfg, client, q, d);
      && (r.Some? <==>
            && "client_id" !in q.repeated && "redirect_uri" !in q.repeated && q.Get("client_id") != "" && client.Some?
            && (if q.Get("redirect_uri") != "" then MatchRedirectURI(cfg, client.value, q.Get("redirect_uri"))
                else |client.value.redirectURIs| == 1 && "openid" !in Fields(q.Get("scope"))))
      && (r.Some? ==>
            var c, t := r.value.0, r.value.1;
            var byObject := q.Get("request") != "";
            var mode :=
              if q.Get("response_mode") != "" then q.Get("response_mode") else if byObject then d.objectMode else "";
            && Some(c) == client
            && (q.Get("redirect_uri") != "" ==> t.redirectURI == q.Get("redirect_uri"))
            && (q.Get("redirect_uri") == "" ==> c.redirectURIs == [t.redirectURI])
            && t.state == (if q.Get("state") != "" then q.Get("state") else if byObject then d.objectState else "")
            && t.mode in {"query", "fragment", "form_post"}
            && (t.mode == "fragment" <==> mode == "fragment" && "response_mode" !in q.repeated)
            && (t.mode == "form_post" <==>
                  mode == "form_post" && "response_mode" !in q.repeated && cfg.isHTTPURL(t.redirectURI)))
  {
  }

  // --- Every request can be asked for ------------------------------------------------------

  /** The parameters of an authorization request that asks for `want`; `digits` stands
      for its max_age and `hint` for an ID token of the end-user it asks for. */
  function Parameter(want: AuthorizationRequest, digits: string, hint: string, name: string): string {
    if name == "client_id" then want.clientID
    else if name == "redirect_uri" then want.redirectURI
    else if name == "response_type" then want.responseType
    else if name == "response_mode" then want.responseMode
    else if name == "scope" then Join(want.scopes)
    else if name == "state" then want.state
    else if name == "nonce" then want.nonce
    else if name == "code_challenge" then want.codeChallenge
    else if name == "code_challenge_method" then want.codeChallengeMethod
    else if name == "prompt" then Join(want.prompt)
    else if name == "max_age" then if want.maxAge.Some? then digits else ""
    else if name == "id_token_hint" then if want.requestedSubject != "" then hint else ""
    else ""
  }

  const ASKING: set<string> := {
    "client_id", "redirect_uri", "response_type", "response_mode", "scope", "state", "nonce", "code_challenge",
    "code_challenge_method", "prompt", "max_age", "id_token_hint"}

  function Asking(want: AuthorizationRequest, digits: string, hint: string): Parameters {
    Parameters(map n | n in ASKING && Parameter(want, digits, hint, n) != "" :: Parameter(want, digits, hint, n), {})
  }

  lemma AskingGets(want: AuthorizationRequest, digits: string, hint: string, n: string)
    ensures Asking(want, digits, hint).Get(n) == Parameter(want, digits, hint, n)
  {
  }

  lemma {:induction false} RegisteredAll(scopes: seq<string>, client: Client)
    requires forall s :: s in scopes ==> s in client.scopes
    ensures Registered(scopes, client) == scopes
  {
    if scopes != [] {
      var rest, last := scopes[..|scopes|-1], scopes[|scopes|-1];
      assert last in client.scopes && Registered(scopes, client) == Registered(rest, client) + [last];
      RegisteredAll(rest, client);
    }
  }

  /** A request that names its redirect URI, each scope once, and whole seconds of
      max_age. */
  ghost predicate Askable(client: Client, want: AuthorizationRequest) {
    && want.clientID != "" && want.redirectURI != "" && want.redirectURIInRequest && want.audience == client.audience
    && NoDup(want.scopes) && NoDup(want.prompt) && PromptsOK(want.prompt) && want.claims == None
    && (want.maxAge.Some? ==>
          want.maxAge.value % SECOND == 0 && 0 <= want.maxAge.value / SECOND <= MAX_MAX_AGE)
  }

  /** The parameters say what is wanted, and nothing else. */
  ghost predicate Conveys(q: Parameters, want: AuthorizationRequest) {
    && q.repeated == {} && LengthsOK(q)
    && q.Get("client_id") == want.clientID && q.Get("redirect_uri") == want.redirectURI
    && q.Get("response_type") == want.responseType && q.Get("response_mode") == want.responseMode
    && q.Get("scope") == Join(want.scopes) && q.Get("state") == want.state && q.Get("nonce") == want.nonce
    && q.Get("code_challenge") == want.codeChallenge && q.Get("code_challenge_method") == want.codeChallengeMethod
    && q.Get("prompt") == Join(want.prompt)
    && (q.Get("max_age") != "" <==> want.maxAge.Some?)
    && (q.Get("id_token_hint") != "" <==> want.requestedSubject != "")
    && !q.Has("request") && !q.Has("request_uri") && q.Get("claims") == ""
    && (want.redirectURI != "" ==> q.Has("redirect_uri"))
  }

  /** What the parameters that are not plain text decode to. */
  predicate DecodesTo(d: Decoded, want: AuthorizationRequest) {
    && d.hintSubject == Some(want.requestedSubject)
    && (want.maxAge.Some? ==> d.maxAge == Some(want.maxAge.value / SECOND))
  }

  lemma PromptWords(v: string)
    requires v in PROMPTS
    ensures SpaceFree(v) && v != ""
  {
    assert ' ' !in "none" && ' ' !in "login";
    assert ' ' !in "consent" && ' ' !in "select_account";
  }

  lemma AskedLists(client: Client, want: AuthorizationRequest)
    requires NoDup(want.scopes) && CheckScopes(client, want.scopes) && NoDup(want.prompt) && PromptsOK(want.prompt)
    ensures Fields(Join(want.scopes)) == want.scopes && Registered(want.scopes, client) == want.scopes
    ensures Fields(Join(want.prompt)) == want.prompt
  {
    ScopeListRoundTrip(want.scopes);
    RegisteredAll(want.scopes, client);
    forall v | v in want.prompt ensures SpaceFree(v) && v != "" { PromptWords(v); }
    FieldsOfJoin(want.prompt);
  }

  lemma AskedTarget(cfg: Config, issuer: string, client: Client, want: AuthorizationRequest, q: Parameters, d: Decoded)
    requires CheckRequest(cfg, issuer, client, want) && Askable(client, want) && Conveys(q, want)
    ensures TargetOf(cfg, Some(client), q, d) == Some((client, Target(want.redirectURI, want.responseMode, want.state)))
  {
  }

  lemma AskedAcceptable(cfg: Config, issuer: string, client: Client, want: AuthorizationRequest, q: Parameters,
                        d: Decoded)
    requires CheckRequest(cfg, issuer, client, want) && Askable(client, want) && Conveys(q, want) && DecodesTo(d, want)
    ensures Acceptable(cfg, client, q, d, Target(want.redirectURI, want.responseMode, want.state), want.pushed)
  {
    AskedLists(client, want);
  }

  lemma AskedValues(cfg: Config, client: Client, want: AuthorizationRequest, q: Parameters, d: Decoded)
    requires Askable(client, want) && Conveys(q, want) && DecodesTo(d, want)
    ensures (if q.Get("max_age") == "" || d.maxAge == None then None else Some(d.maxAge.value * SECOND)) == want.maxAge
    ensures RequestedSubject(cfg, client, q, d) == want.requestedSubject
      && ParsedClaims(cfg, client, q, d) == want.claims
    ensures (if q.Get("code_challenge") == "" then "" else q.Get("code_challenge_method")) ==
      if want.codeChallenge == "" then "" else want.codeChallengeMethod
  {
  }

  lemma AskedBase(cfg: Config, issuer: string, client: Client, want: AuthorizationRequest, q: Parameters, now: Time)
    requires CheckRequest(cfg, issuer, client, want) && Askable(client, want) && Conveys(q, want)
    ensures Base(cfg, issuer, client, q, Target(want.redirectURI, want.responseMode, want.state), want.pushed, now) ==
      want.(id := "", extra := map[], bindingHash := "", parsed := true, pushedBy := "", redeemed := false,
        createdAt := now, expiresAt := now + cfg.lifetimes.authorizationRequest, scopes := [], codeChallenge := "",
        codeChallengeMethod := "", prompt := [], maxAge := None, claims := None, requestedSubject := "")
  {
  }

  lemma AskedFields(cfg: Config, issuer: string, client: Client, want: AuthorizationRequest, q: Parameters, d: Decoded,
                    now: Time)
    requires CheckRequest(cfg, issuer, client, want) && Askable(client, want) && Conveys(q, want) && DecodesTo(d, want)
    ensures Parsed(cfg, issuer, client, q, d, Target(want.redirectURI, want.responseMode, want.state), want.pushed,
      now) ==
      want.(id := "", extra := map[], bindingHash := "", parsed := true, pushedBy := "", redeemed := false,
        createdAt := now, expiresAt := now + cfg.lifetimes.authorizationRequest)
  {
    AskedLists(client, want);
    AskedValues(cfg, client, want, q, d);
    AskedBase(cfg, issuer, client, want, q, now);
  }

  /** Every request that passes the check can be asked for: any parameters that convey
      it are accepted, and parsing them gives back exactly what was asked for. */
  lemma EveryRequestCanBeAskedFor(cfg: Config, issuer: string, client: Client, want: AuthorizationRequest,
                                  q: Parameters,
                                  d: Decoded, now: Time)
    requires CheckRequest(cfg, issuer, client, want) && Askable(client, want) && Conveys(q, want) && DecodesTo(d, want)
    ensures var target := Target(want.redirectURI, want.responseMode, want.state);
      && TargetOf(cfg, Some(client), q, d) == Some((client, target))
      && Refusal(cfg, client, q, d, target, want.pushed) == None
      && Parsed(cfg, issuer, client, q, d, target, want.pushed, now) ==
           want.(id := "", extra := map[], bindingHash := "", parsed := true, pushedBy := "", redeemed := false,
             createdAt := now, expiresAt := now + cfg.lifetimes.authorizationRequest)
  {
    AskedTarget(cfg, issuer, client, want, q, d);
    AskedAcceptable(cfg, issuer, client, want, q, d);
    AskedFields(cfg, issuer, client, want, q, d, now);
  }

  /** And there are such parameters, unless one of them would be too long. */
  lemma AskingConveys(want: AuthorizationRequest, digits: string, hint: string)
    requires want.maxAge.Some? ==> digits != ""
    requires want.requestedSubject != "" ==> hint != ""
    requires forall n :: n in ASKING ==> |Parameter(want, digits, hint, n)| <= MAX_PARAM_LENGTH
    ensures Conveys(Asking(want, digits, hint), want)
  {
    AskingGets(want, digits, hint, "client_id");
    AskingGets(want, digits, hint, "redirect_uri");
    AskingGets(want, digits, hint, "response_type");
    AskingGets(want, digits, hint, "response_mode");
    AskingGets(want, digits, hint, "scope");
    AskingGets(want, digits, hint, "state");
    AskingGets(want, digits, hint, "nonce");
    AskingGets(want, digits, hint, "code_challenge");
    AskingGets(want, digits, hint, "code_challenge_method");
    AskingGets(want, digits, hint, "prompt");
    AskingGets(want, digits, hint, "max_age");
    AskingGets(want, digits, hint, "id_token_hint");
    AskingGets(want, digits, hint, "claims");
  }

  // --- Parsing and checking agree ---------------------------------------------------

  /** Every accepted request, pushed or not, passes the check that runs again
      before it is saved, pushed or approved. */
  lemma ParsedRequestsPass(cfg: Config, issuer: string, client: Client, q: Parameters, d: Decoded, target: Target,
                           pushed: bool, now: Time, extra: map<string, string>)
    requires TargetOf(cfg, Some(client), q, d) == Some((client, target))
    requires Acceptable(cfg, client, q, d, target, pushed)
    ensures CheckRequest(cfg, issuer, client, Parsed(cfg, issuer, client, q, d, target, pushed, now).(extra := extra))
  {
    assert q.Get("redirect_uri") == "" ==> client.redirectURIs[0] in client.redirectURIs;
  }

  /** Narrowing the scopes of a valid request keeps it valid exactly if it has a
      challenge, the client needs none, or openid is kept. */
  lemma NarrowingKeepsCheck(cfg: Config, issuer: string, client: Client, req: AuthorizationRequest, scopes: seq<string>)
    requires CheckRequest(cfg, issuer, client, req) && SubsetOf(scopes, req.scopes)
    ensures CheckRequest(cfg, issuer, client, req.(scopes := scopes))
      <==> (req.codeChallenge != "" || client.PkcePolicy() == Optional || "openid" in scopes)
  {
  }
}
