/** Completing an authorization request (approve.go): the request an application
    passes back, with whatever edits, is checked again before a code is issued. */
module Approvals {
  import opened Basics
  import opened Records
  import opened Memory
  import opened Reads
  import opened Issuance
  import opened Claims
  import opened Authorization

  datatype Failure = RequestNotFound | Modified | InvalidApproval | InvalidAuthorizationRequest | Other

  /** The application's decision. */
  datatype Approval = Approval(
    subject: string,
    scopes: seq<string>,
    authTime: Option<Time>,
    acr: string,
    amr: seq<string>,
    claims: seq<string>,
    audience: seq<string>)

  /** sameProtocolFields. */
  predicate SameProtocolFields(a: AuthorizationRequest, b: AuthorizationRequest) {
    && a.issuer == b.issuer && a.clientID == b.clientID
    && a.redirectURI == b.redirectURI && a.redirectURIInRequest == b.redirectURIInRequest
    && a.responseType == b.responseType && a.responseMode == b.responseMode && a.state == b.state
    && a.scopes == b.scopes && a.audience == b.audience && a.pushed == b.pushed
    && a.codeChallenge == b.codeChallenge && a.codeChallengeMethod == b.codeChallengeMethod
    && a.nonce == b.nonce && a.prompt == b.prompt && a.maxAge == b.maxAge
    && a.requestedSubject == b.requestedSubject
  }

  /** checkUnsaved. */
  function CheckUnsaved(req: AuthorizationRequest): Option<Failure> {
    if !req.parsed then Some(Other)
    else if req.pushed != req.redeemed then Some(InvalidAuthorizationRequest)
    else None
  }

  /** The request to complete: the stored copy of a saved one, or the unsaved one. */
  function Current(c: Contents, issuer: string, binding: string, req: AuthorizationRequest, now: Time):
    Result<AuthorizationRequest, Failure>
  {
    if req.id != "" then
      match LoadPending(c, issuer, req.id, binding, now)
      case None => Err(RequestNotFound)
      case Some(stored) => if SameProtocolFields(stored, req) then Ok(stored) else Err(Modified)
    else if CheckUnsaved(req).Some? then Err(CheckUnsaved(req).value)
    else if now >= req.expiresAt then Err(RequestNotFound)
    else Ok(req)
  }

  /** completable; `registry` holds the clients of the issuer. A denial only needs
      its response to be deliverable. */
  ghost function Completable(cfg: Config, c: Contents, issuer: string, registry: map<string, Client>, binding: string,
                             req: AuthorizationRequest, approval: bool, now: Time):
    Result<(Client, AuthorizationRequest), Failure>
  {
    match Current(c, issuer, binding, req, now)
    case Err(e) => Err(e)
    case Ok(current) =>
      if current.clientID !in registry then Err(Other)
      else
        var client := registry[current.clientID];
        if approval && !CheckRequest(cfg, issuer, client, current) then Err(InvalidAuthorizationRequest)
        else if !CheckDelivery(cfg, issuer, client, current) then Err(InvalidAuthorizationRequest)
        else Ok((client, current.(claims := ClaimsForClient(cfg, client, current.claims))))
  }

  predicate NeedsAuthentication(req: AuthorizationRequest, authTime: Option<Time>, now: Time) {
    authTime == None ||
    var during := authTime.value >= req.createdAt - req.createdAt % SECOND;
    || ("login" in req.prompt && !during)
    || (req.maxAge == Some(0) && !during)
    || (req.maxAge.Some? && req.maxAge.value != 0 && now - authTime.value > req.maxAge.value)
  }

  function Strings(values: seq<Json>): seq<string> {
    if values == [] then []
    else (if values[0].Str? then [values[0].s] else []) + Strings(values[1..])
  }

  /** The acr values of an essential acr claim request; None if there is none. */
  function EssentialACR(c: Option<ClaimsRequest>): Option<seq<string>> {
    if c.Some? && "acr" in c.value.idToken && c.value.idToken["acr"].Some? && c.value.idToken["acr"].value.essential
    then Some(Strings([c.value.idToken["acr"].value.value]) + Strings(c.value.idToken["acr"].value.values))
    else None
  }

  predicate ValidSubject(subject: string) {
    1 <= |subject| <= 255 && forall i :: 0 <= i < |subject| ==> 0x20 <= subject[i] as int <= 0x7e
  }

  ghost predicate AuthenticationOK(req: AuthorizationRequest, a: Approval, now: Time) {
    && a.authTime.Some? && a.authTime.value <= now + MINUTE
    && !NeedsAuthentication(req, a.authTime, now)
    && (req.requestedSubject != "" ==> req.requestedSubject == a.subject)
    && (EssentialACR(req.claims).Some? ==>
         a.acr != "" && (EssentialACR(req.claims).value == [] || a.acr in EssentialACR(req.claims).value))
  }

  ghost predicate ApprovalOK(req: AuthorizationRequest, a: Approval, now: Time) {
    && ValidSubject(a.subject)
    && SubsetOf(a.scopes, req.scopes)
    && (forall c :: c in a.claims ==> c in Names(req.claims))
    && (req.IsOpenID() ==> "openid" in a.scopes && AuthenticationOK(req, a, now))
  }

  function ApprovedClaims(req: AuthorizationRequest, a: Approval): Option<ClaimsRequest> {
    if req.IsOpenID() then Filtered(req.claims, set c | c in a.claims) else None
  }

  /** The authorization code of an approval, or why there is none. */
  ghost function CodeFor(cfg: Config, issuer: string, client: Client, req: AuthorizationRequest, a: Approval, now: Time,
                         code: Hash, grantID: string): Result<Token, Failure> {
    if !ApprovalOK(req, a, now) || !SubsetOf(a.audience, req.audience) then Err(InvalidApproval)
    else if a.audience == [] && FirstFormat(client.accessTokenFormat, cfg.accessTokenFormat) == FORMAT_JWT
    then Err(InvalidApproval)
    else Ok(Token(code, AuthorizationCode, grantID, issuer, req.clientID, a.subject, Dedup(a.scopes),
      a.authTime, a.acr, a.amr,
      ApprovedClaims(req, a), Dedup(a.audience), map[], req.redirectURI, req.redirectURIInRequest, req.nonce,
      req.codeChallenge, req.codeChallengeMethod, now, now + cfg.lifetimes.authorizationCode, None))
  }

  // --- Approve and Deny --------------------------------------------------------------

  datatype Response = Refused(failure: Failure) | ErrorSent | CodeSent(code: Hash) | DenialSent(error: string)

  /** Which storage calls fail: loading the saved request, deleting it, storing the
      code. A failing client lookup is a registry without the client. */
  datatype Faults = Faults(load: bool, delete: bool, create: bool)

  const NO_FAULTS := Faults(false, false, false)

  /** completable, when loading a saved request may fail. */
  ghost function Loaded(cfg: Config, c: Contents, issuer: string, registry: map<string, Client>, binding: string,
                        req: AuthorizationRequest, approval: bool, now: Time, fails: bool):
    Result<(Client, AuthorizationRequest), Failure>
  {
    if fails && req.id != "" && !HasPrefix(req.id, PUSHED_PREFIX) then Err(Other)
    else Completable(cfg, c, issuer, registry, binding, req, approval, now)
  }

  method RunCompletable(cfg: Config, store: Store, issuer: string, registry: map<string, Client>, binding: string,
                        req: AuthorizationRequest, approval: bool, now: Time, fails: bool)
    returns (r: Result<(Client, AuthorizationRequest), Failure>)
    ensures r == Loaded(cfg, store.Value(), issuer, registry, binding, req, approval, now, fails)
  {
    if fails && req.id != "" && !HasPrefix(req.id, PUSHED_PREFIX) {
      return Err(Other);
    }
    var current := Current(store.Value(), issuer, binding, req, now);
    if current.Err? {
      return Err(current.error);
    }
    if current.value.clientID !in registry {
      return Err(Other);
    }
    var client := registry[current.value.clientID];
    var ok := CheckDelivery(cfg, issuer, client, current.value);
    if approval {
      ok := RunCheckRequest(cfg, issuer, client, current.value);
    }
    if !ok {
      return Err(InvalidAuthorizationRequest);
    }
    var claims := ComputeClaimsForClient(cfg, client, current.value.claims);
    return Ok((client, current.value.(claims := claims)));
  }

  /** A new code: who and what was approved, for the request that was demanded. */
  ghost predicate CodeOf(cfg: Config, issuer: string, demanded: AuthorizationRequest, a: Approval, now: Time,
                         grantID: string, t: Token) {
    && t.kind == AuthorizationCode && t.grantID == grantID && t.issuer == issuer && t.clientID == demanded.clientID
    && t.subject == a.subject && t.authTime == a.authTime && t.acr == a.acr && t.amr == a.amr
    && ListsExactly(t.scopes, a.scopes) && ListsExactly(t.audience, a.audience)
    && t.redirectURI == demanded.redirectURI && (t.redirectURIInRequest <==> demanded.redirectURIInRequest)
    && t.nonce == demanded.nonce
    && t.codeChallenge == demanded.codeChallenge && t.codeChallengeMethod == demanded.codeChallengeMethod
    && t.createdAt == now && t.expiresAt - now == cfg.lifetimes.authorizationCode
    && t.consumedAt == None && t.accessTokenClaims == map[]
  }

  /** validateApproval and the audience selection of Approve. */
  method ComputeCode(cfg: Config, issuer: string, client: Client, req: AuthorizationRequest, a: Approval, now: Time,
                     code: Hash, grantID: string) returns (r: Result<Token, Failure>)
    ensures r == CodeFor(cfg, issuer, client, req, a, now, code, grantID)
    ensures r.Ok? ==> r.value.hash == code && CodeOf(cfg, issuer, req, a, now, grantID, r.value)
  {
    if !ValidSubject(a.subject) {
      return Err(InvalidApproval);
    }
    var scopes := Select(req.scopes, a.scopes);
    if scopes == None {
      return Err(InvalidApproval);
    }
    for i := 0 to |a.claims|
      invariant forall k :: 0 <= k < i ==> a.claims[k] in Names(req.claims)
    {
      if a.claims[i] !in Names(req.claims) {
        assert a.claims[i] in a.claims;
        return Err(InvalidApproval);
      }
    }
    if req.IsOpenID() {
      if "openid" !in scopes.value || a.authTime == None || a.authTime.value > now + MINUTE {
        return Err(InvalidApproval);
      }
      if NeedsAuthentication(req, a.authTime, now) {
        return Err(InvalidApproval);
      }
      if req.requestedSubject != "" && req.requestedSubject != a.subject {
        return Err(InvalidApproval);
      }
      var values := EssentialACR(req.claims);
      if values.Some? && (a.acr == "" || (|values.value| > 0 && a.acr !in values.value)) {
        return Err(InvalidApproval);
      }
    }
    assert ApprovalOK(req, a, now);
    var audience := Select(req.audience, a.audience);
    if audience == None {
      return Err(InvalidApproval);
    }
    if |audience.value| == 0 && FirstFormat(client.accessTokenFormat, cfg.accessTokenFormat) == FORMAT_JWT {
      return Err(InvalidApproval);
    }
    assert a.audience != [] ==> a.audience[0] in audience.value;
    return Ok(Token(code, AuthorizationCode, grantID, issuer, req.clientID, a.subject, scopes.value,
      a.authTime, a.acr, a.amr,
      ApprovedClaims(req, a), audience.value, map[], req.redirectURI, req.redirectURIInRequest, req.nonce,
      req.codeChallenge, req.codeChallengeMethod, now, now + cfg.lifetimes.authorizationCode, None));
  }

  /** Deleting the saved request, if it is saved. */
  function WithoutRequest(c: Contents, id: string): Contents {
    if id == "" then c else c.(requests := c.requests - {id})
  }

  /** The answer to an approval, and the store after it. */
  ghost function ApproveOutcome(cfg: Config, c: Contents, issuer: string, registry: map<string, Client>,
                                binding: string, req: AuthorizationRequest, a: Approval, now: Time, code: Hash,
                                grantID: string,
                                faults: Faults): (Response, Contents) {
    match Loaded(cfg, c, issuer, registry, binding, req, true, now, faults.load)
    case Err(e) => (Refused(e), c)
    case Ok((client, current)) =>
      match CodeFor(cfg, issuer, client, current, a, now, code, grantID)
      case Err(e) => (Refused(e), c)
      case Ok(t) =>
        var rest := WithoutRequest(c, current.id);
        var d := Collect(rest, now);
        if faults.delete && current.id != "" then (Refused(Other), c)
        else if faults.create then (ErrorSent, rest)
        else if code in d.tokens then (ErrorSent, d)
        else (CodeSent(code), d.(tokens := d.tokens[code := t]))
  }

  /** Approve. */
  method Approve(cfg: Config, store: Store, issuer: string, registry: map<string, Client>, binding: string,
                 req: AuthorizationRequest, a: Approval, now: Time, code: Hash, grantID: string, faults: Faults)
    returns (r: Response)
    modifies store
    ensures (r, store.Value()) ==
      ApproveOutcome(cfg, old(store.Value()), issuer, registry, binding, req, a, now, code, grantID, faults)
  {
    var done := RunCompletable(cfg, store, issuer, registry, binding, req, true, now, faults.load);
    if done.Err? {
      return Refused(done.error);
    }
    var t := ComputeCode(cfg, issuer, done.value.0, done.value.1, a, now, code, grantID);
    if t.Err? {
      return Refused(t.error);
    }
    if done.value.1.id != "" {
      if faults.delete {
        return Refused(Other);
      }
      var deleted := store.DeleteAuthorizationRequest(done.value.1.id);
      if deleted.Err? {
        return Refused(RequestNotFound);
      }
    }
    if faults.create {
      return ErrorSent;
    }
    var created := store.CreateToken(t.value, now);
    return if created.Err? then ErrorSent else CodeSent(code);
  }

  /** validErrorCode. */
  predicate ValidErrorCode(code: string) {
    code != "" && forall i :: 0 <= i < |code| ==> 0x20 <= code[i] as int <= 0x7e && code[i] != '"' && code[i] != '\\'
  }

  const ACCESS_DENIED := "access_denied"

  /** The answer to a denial, and the store after it. */
  ghost function DenyOutcome(cfg: Config, c: Contents, issuer: string, registry: map<string, Client>, binding: string,
                             req: AuthorizationRequest, reason: Option<string>, now: Time, faults: Faults):
    (Response, Contents)
  {
    var error := if reason.Some? then reason.value else ACCESS_DENIED;
    if !ValidErrorCode(error) then (Refused(Other), c)
    else
      match Loaded(cfg, c, issuer, registry, binding, req, false, now, faults.load)
      case Err(e) => (Refused(e), c)
      case Ok((_, current)) =>
        if faults.delete && current.id != "" then (Refused(Other), c)
        else (DenialSent(error), WithoutRequest(c, current.id))
  }

  /** Deny. */
  method Deny(cfg: Config, store: Store, issuer: string, registry: map<string, Client>, binding: string,
              req: AuthorizationRequest, reason: Option<string>, now: Time, faults: Faults) returns (r: Response)
    modifies store
    ensures (r, store.Value()) ==
      DenyOutcome(cfg, old(store.Value()), issuer, registry, binding, req, reason, now, faults)
  {
    var error := ACCESS_DENIED;
    if reason.Some? {
      error := reason.value;
    }
    if !ValidErrorCode(error) {
      return Refused(Other);
    }
    var done := RunCompletable(cfg, store, issuer, registry, binding, req, false, now, faults.load);
    if done.Err? {
      return Refused(done.error);
    }
    if done.value.1.id != "" {
      if faults.delete {
        return Refused(Other);
      }
      var deleted := store.DeleteAuthorizationRequest(done.value.1.id);
      if deleted.Err? {
        return Refused(RequestNotFound);
      }
    }
    return DenialSent(error);
  }

  // --- Edit safety ---------------------------------------------------------------------

  /** What every stored code satisfies, for the registration at its approval. */
  ghost predicate SafeCode(cfg: Config, issuer: string, client: Client, t: Token) {
    && t.kind == AuthorizationCode && t.consumedAt == None
    && t.issuer == issuer && t.clientID == client.id && ValidSubject(t.subject)
    && MatchRedirectURI(cfg, client, t.redirectURI)
    && NoDup(t.scopes) && CheckScopes(client, t.scopes)
    && NoDup(t.audience) && SubsetOf(t.audience, client.audience)
    && (FirstFormat(client.accessTokenFormat, cfg.accessTokenFormat) == FORMAT_JWT ==> t.audience != [])
    && (if t.codeChallenge == "" then t.codeChallengeMethod == "" && client.PkcePolicy() != Required
        else WellFormedChallenge(t.codeChallenge, t.codeChallengeMethod))
    && client.AllowsGrant(GRANT_CODE)
  }

  /** Whatever the application did to the request it passes, and whatever it
      approves, a code that is issued is safe and stays within the request. */
  lemma AnyEditIsSafe(cfg: Config, c: Contents, issuer: string, registry: map<string, Client>, binding: string,
                      req: AuthorizationRequest, a: Approval, now: Time, code: Hash, grantID: string)
    ensures var done := Completable(cfg, c, issuer, registry, binding, req, true, now);
      done.Ok? ==>
        var t := CodeFor(cfg, issuer, done.value.0, done.value.1, a, now, code, grantID);
        t.Ok? ==>
          && SafeCode(cfg, issuer, done.value.0, t.value)
          && SubsetOf(t.value.scopes, req.scopes) && SubsetOf(t.value.audience, req.audience)
          && t.value.redirectURI == req.redirectURI && t.value.codeChallenge == req.codeChallenge
          && t.value.nonce == req.nonce
          && (req.IsOpenID() ==> "openid" in t.value.scopes)
          && t.value.claims == (if req.IsOpenID() then
               Filtered(ClaimsForClient(cfg, done.value.0,
                 if req.id != "" then c.requests[req.id].claims else req.claims), set n | n in a.claims) else None)
          && (cfg.ParRequired(done.value.0) ==> req.pushed)
          && req.responseType == "code"
          && (req.responseMode in {"query", "fragment"}
              || (req.responseMode == "form_post" && cfg.isHTTPURL(req.redirectURI)))
  {
    var done := Completable(cfg, c, issuer, registry, binding, req, true, now);
    if done.Ok? {
      var current := Current(c, issuer, binding, req, now).value;
      var t := CodeFor(cfg, issuer, done.value.0, done.value.1, a, now, code, grantID);
      if t.Ok? && a.audience != [] {
        assert a.audience[0] in t.value.audience;
      }
    }
  }

  /** What an approved authentication achieves for an OpenID request: the end-user the
      client asked for, authenticated during the request if the client demanded that
      and recently enough in any case, at one of the essential authentication classes. */
  ghost predicate Authenticated(req: AuthorizationRequest, t: Token, now: Time) {
    && t.authTime.Some? && t.authTime.value <= now + MINUTE
    && (req.requestedSubject != "" ==> t.subject == req.requestedSubject)
    && ("login" in req.prompt || req.maxAge == Some(0) ==> t.authTime.value >= req.createdAt - req.createdAt % SECOND)
    && (req.maxAge.Some? && req.maxAge.value != 0 ==> now - t.authTime.value <= req.maxAge.value)
    && (EssentialACR(req.claims).Some? ==>
         t.acr != "" && (EssentialACR(req.claims).value == [] || t.acr in EssentialACR(req.claims).value))
  }

  lemma FilterKeepsACR(cfg: Config, client: Client, c: Option<ClaimsRequest>)
    ensures EssentialACR(ClaimsForClient(cfg, client, c)) == EssentialACR(c)
  {
    if c.Some? && "acr" in c.value.idToken {
      var keep := AUTHENTICATION_CLAIMS + Mapped(cfg, client.scopes);
      assert "acr" in Kept(c.value.idToken, keep);
    }
  }

  /** Every code of an OpenID request satisfies the authentication that the request
      demanded when it was parsed or saved: for a saved request by its stored record,
      whatever the application passes. */
  lemma AuthenticationAsDemanded(cfg: Config, c: Contents, issuer: string, registry: map<string, Client>,
                                 binding: string, req: AuthorizationRequest, a: Approval, now: Time, code: Hash,
                                 grantID: string)
    requires req.IsOpenID()
    ensures var r := ApproveOutcome(cfg, c, issuer, registry, binding, req, a, now, code, grantID, NO_FAULTS);
      var demanded := if req.id != "" && req.id in c.requests then c.requests[req.id] else req;
      r.0.CodeSent? ==> code in r.1.tokens && Authenticated(demanded, r.1.tokens[code], now)
  {
    var done := Completable(cfg, c, issuer, registry, binding, req, true, now);
    if done.Ok? {
      var current := Current(c, issuer, binding, req, now).value;
      FilterKeepsACR(cfg, done.value.0, current.claims);
      assert done.value.1.IsOpenID() == current.IsOpenID() == req.IsOpenID();
    }
  }

  /** A code was sent: the request is no longer saved. */
  lemma CompletionRemoves(cfg: Config, c: Contents, issuer: string, registry: map<string, Client>, binding: string,
                          req: AuthorizationRequest, a: Approval, now: Time, code: Hash, grantID: string)
    ensures var o := ApproveOutcome(cfg, c, issuer, registry, binding, req, a, now, code, grantID, NO_FAULTS);
      o.0.CodeSent? ==> o.0.code == code && code in o.1.tokens && (req.id != "" ==> req.id !in o.1.requests)
  {
    var done := Completable(cfg, c, issuer, registry, binding, req, true, now);
    if done.Ok? {
      assert done.value.1.id == Current(c, issuer, binding, req, now).value.id == req.id;
    }
  }

  /** An unsaved request does not depend on the store; a saved one needs its record. */
  lemma CompletableAgain(cfg: Config, c: Contents, c': Contents, issuer: string, registry: map<string, Client>,
                         binding: string, req: AuthorizationRequest, now: Time)
    ensures req.id == "" ==>
      Completable(cfg, c', issuer, registry, binding, req, true, now)
      == Completable(cfg, c, issuer, registry, binding, req, true, now)
    ensures req.id != "" && req.id !in c'.requests ==>
      Completable(cfg, c', issuer, registry, binding, req, true, now) == Err(RequestNotFound)
    ensures Completable(cfg, c, issuer, registry, binding, req, true, now).Ok? ==>
      Completable(cfg, c, issuer, registry, binding, req, true, now).value.1.id == req.id
  {
  }

  /** Exactly saved requests are single-use: if an approval was answered with a code,
      a later approval of the same request, which would have been accepted without the
      first, is answered with a second code if and only if the request was not saved. */
  lemma OnlySavedRequestsAreSingleUse(cfg: Config, c: Contents, issuer: string, registry: map<string, Client>,
                                      binding: string, req: AuthorizationRequest, a: Approval, now: Time, code: Hash,
                                      grantID: string,
                                      later: Approval, now': Time, second: Hash, secondGrant: string)
    requires ApproveOutcome(cfg, c, issuer, registry, binding, req, a, now, code, grantID, NO_FAULTS).0.CodeSent?
    requires
      ApproveOutcome(cfg, c, issuer, registry, binding, req, later, now', second, secondGrant, NO_FAULTS).0.CodeSent?
    requires
      second !in ApproveOutcome(cfg, c, issuer, registry, binding, req, a, now, code, grantID, NO_FAULTS).1.tokens
    ensures var c' := ApproveOutcome(cfg, c, issuer, registry, binding, req, a, now, code, grantID, NO_FAULTS).1;
      var r := ApproveOutcome(cfg, c', issuer, registry, binding, req, later, now', second, secondGrant, NO_FAULTS);
      && (r.0 == CodeSent(second) <==> req.id == "")
      && (req.id != "" ==> r == (Refused(RequestNotFound), c'))
      && (req.id == "" ==> second in r.1.tokens && (code in r.1.tokens || Collectable(now', c'.tokens[code].expiresAt)))
  {
    var c' := ApproveOutcome(cfg, c, issuer, registry, binding, req, a, now, code, grantID, NO_FAULTS).1;
    CompletionRemoves(cfg, c, issuer, registry, binding, req, a, now, code, grantID);
    CompletableAgain(cfg, c, c', issuer, registry, binding, req, now');
  }
}
