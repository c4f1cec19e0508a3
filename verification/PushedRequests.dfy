/** Requests that are kept in storage between HTTP requests: pushed ones (par.go)
    and saved ones (SaveAuthorizationRequest of authorize.go). */
module PushedRequests {
  import opened Basics
  import opened Records
  import opened Memory
  import opened Reads
  import opened Params
  import opened Claims
  import opened Authorization
  import opened Approvals

  const REQUEST_URI_PREFIX := "urn:ietf:params:oauth:request_uri:"
  const REF_LENGTH := 43

  /** The values of randomToken: base64url of 32 bytes. */
  predicate Ref(ref: string) { |ref| == REF_LENGTH && Unreserved(ref) }

  function RequestURI(ref: string): string { REQUEST_URI_PREFIX + ref }

  function StorageID(ref: string): string { PUSHED_PREFIX + ref }

  /** The storage ID that a request_uri refers to, if it has the form of an issued one. */
  function Referenced(uri: string): Option<string> {
    if HasPrefix(uri, REQUEST_URI_PREFIX) && Ref(uri[|REQUEST_URI_PREFIX|..])
    then Some(StorageID(uri[|REQUEST_URI_PREFIX|..])) else None
  }

  // --- Pushing ------------------------------------------------------------------------

  ghost predicate MayPush(cfg: Config, issuer: string, registry: map<string, Client>, req: AuthorizationRequest) {
    && cfg.par != Disabled
    && req.pushedBy == req.clientID != "" && req.id == ""
    && req.clientID in registry && CheckRequest(cfg, issuer, registry[req.clientID], req)
  }

  function PushedRecord(cfg: Config, client: Client, req: AuthorizationRequest, ref: string, now: Time):
    AuthorizationRequest
  {
    req.(id := StorageID(ref), pushed := true, parsed := false, pushedBy := "", bindingHash := "",
         claims := ClaimsForClient(cfg, client, req.claims),
         createdAt := now, expiresAt := now + cfg.lifetimes.pushedRequest)
  }

  datatype PushResponse = PushResponse(requestURI: string, expiresIn: int)

  datatype PushError = NotEnabled | PushFailed

  /** The answer to a pushed request with the reference that was drawn, and the store
      after it. */
  ghost function PushOutcome(cfg: Config, c: Contents, issuer: string, registry: map<string, Client>,
                             req: AuthorizationRequest, ref: string, now: Time, faults: Faults):
    (Result<PushResponse, PushError>, Contents)
  {
    var d := Collect(c, now);
    if cfg.par == Disabled then (Err(NotEnabled), c)
    else if !MayPush(cfg, issuer, registry, req) || faults.create then (Err(PushFailed), c)
    else if StorageID(ref) in d.requests then (Err(PushFailed), d)
    else (Ok(PushResponse(RequestURI(ref), cfg.lifetimes.pushedRequest / SECOND)),
          d.(requests := d.requests[StorageID(ref) := PushedRecord(cfg, registry[req.clientID], req, ref, now)]))
  }

  /** pushAuthorization. */
  method PushAuthorization(cfg: Config, store: Store, issuer: string, registry: map<string, Client>,
                           req: AuthorizationRequest, ref: string, now: Time, faults: Faults)
    returns (r: Result<PushResponse, PushError>)
    modifies store
    ensures (r, store.Value()) == PushOutcome(cfg, old(store.Value()), issuer, registry, req, ref, now, faults)
  {
    if cfg.par == Disabled {
      return Err(NotEnabled);
    }
    if req.pushedBy == "" || req.pushedBy != req.clientID || req.id != "" || req.clientID !in registry {
      return Err(PushFailed);
    }
    var client := registry[req.clientID];
    var ok := RunCheckRequest(cfg, issuer, client, req);
    if !ok || faults.create {
      return Err(PushFailed);
    }
    var claims := ComputeClaimsForClient(cfg, client, req.claims);
    var pushed := req.(id := StorageID(ref), pushed := true, parsed := false, pushedBy := "", bindingHash := "");
    pushed := pushed.(claims := claims, createdAt := now, expiresAt := now + cfg.lifetimes.pushedRequest);
    var created := store.CreateAuthorizationRequest(pushed, now);
    if created.Err? {
      return Err(PushFailed);
    }
    return Ok(PushResponse(RequestURI(ref), cfg.lifetimes.pushedRequest / SECOND));
  }

  // --- Redeeming ------------------------------------------------------------------------

  /** The stored request that a client may redeem with a request_uri. */
  function Redeemable(c: Contents, issuer: string, clientID: string, uri: string, now: Time):
    Option<AuthorizationRequest>
  {
    match Referenced(uri)
    case None => None
    case Some(id) =>
      if id !in c.requests then None else
        var p := c.requests[id];
        if p.id == id && p.pushed && p.issuer == issuer && p.clientID == clientID && now < p.expiresAt
        then Some(p) else None
  }

  /** What redeeming a pushed request hands to the application. */
  function RedeemedRequest(cfg: Config, p: AuthorizationRequest, now: Time): AuthorizationRequest {
    p.(id := "", parsed := true, redeemed := true, createdAt := now,
      expiresAt := now + cfg.lifetimes.authorizationRequest)
  }

  datatype RedeemError = BadParameters | InvalidURI | RedeemFailed | NoClient | NoLongerMatches(redirect: bool)

  function LoadRedeemable(c: Contents, issuer: string, q: Parameters, now: Time, fails: bool):
    Result<AuthorizationRequest, RedeemError>
  {
    if "client_id" in q.repeated || "request_uri" in q.repeated || q.Get("client_id") == "" then Err(BadParameters)
    else if Referenced(q.Get("request_uri")) == None then Err(InvalidURI)
    else if fails then Err(RedeemFailed)
    else
      match Redeemable(c, issuer, q.Get("client_id"), q.Get("request_uri"), now)
      case None => Err(InvalidURI)
      case Some(p) => Ok(p)
  }

  /** The answer to a request_uri, and the store after it. A redeemed request is used
      up even if the registration no longer allows it. */
  ghost function RedeemOutcome(cfg: Config, c: Contents, issuer: string, registry: map<string, Client>, q: Parameters,
                               now: Time, faults: Faults): (Result<AuthorizationRequest, RedeemError>, Contents)
  {
    match LoadRedeemable(c, issuer, q, now, faults.load)
    case Err(e) => (Err(e), c)
    case Ok(p) =>
      var rest := WithoutRequest(c, p.id);
      if faults.delete then (Err(RedeemFailed), c)
      else if p.clientID !in registry then (Err(NoClient), rest)
      else if !CheckRequest(cfg, issuer, registry[p.clientID], p)
      then (Err(NoLongerMatches(CheckDelivery(cfg, issuer, registry[p.clientID], p))), rest)
      else (Ok(RedeemedRequest(cfg, p, now)), rest)
  }

  /** redeemPushedRequest. */
  method RedeemPushedRequest(cfg: Config, store: Store, issuer: string, registry: map<string, Client>, q: Parameters,
                             now: Time, faults: Faults)
    returns (r: Result<AuthorizationRequest, RedeemError>)
    modifies store
    ensures (r, store.Value()) == RedeemOutcome(cfg, old(store.Value()), issuer, registry, q, now, faults)
  {
    if "client_id" in q.repeated || "request_uri" in q.repeated {
      return Err(BadParameters);
    }
    var clientID := q.Get("client_id");
    if clientID == "" {
      return Err(BadParameters);
    }
    var id := Referenced(q.Get("request_uri"));
    if id == None {
      return Err(InvalidURI);
    }
    if faults.load {
      return Err(RedeemFailed);
    }
    var loaded := store.AuthorizationRequest(id.value);
    if loaded.Err? {
      return Err(InvalidURI);
    }
    var p := loaded.value;
    if p.id != id.value || !p.pushed || p.issuer != issuer || p.clientID != clientID || now >= p.expiresAt {
      return Err(InvalidURI);
    }
    if faults.delete {
      return Err(RedeemFailed);
    }
    var deleted := store.DeleteAuthorizationRequest(p.id);
    if clientID !in registry {
      return Err(NoClient);
    }
    var client := registry[clientID];
    if !CheckDelivery(cfg, issuer, client, p) {
      return Err(NoLongerMatches(false));
    }
    var ok := RunCheckRequest(cfg, issuer, client, p);
    if !ok {
      return Err(NoLongerMatches(true));
    }
    return Ok(p.(id := "", parsed := true, redeemed := true, createdAt := now,
      expiresAt := now + cfg.lifetimes.authorizationRequest));
  }

  // --- Saving --------------------------------------------------------------------------

  ghost predicate MaySave(cfg: Config, issuer: string, registry: map<string, Client>, req: AuthorizationRequest) {
    && req.id == "" && CheckUnsaved(req) == None
    && req.clientID in registry && CheckRequest(cfg, issuer, registry[req.clientID], req)
  }

  /** `binding` is the hash of the cookie value, if requests are bound to user agents. */
  function SavedRecord(cfg: Config, client: Client, req: AuthorizationRequest, id: string, binding: Option<Hash>):
    AuthorizationRequest
  {
    req.(id := id, parsed := false, claims := ClaimsForClient(cfg, client, req.claims),
         bindingHash := if binding.Some? then binding.value else req.bindingHash)
  }

  /** Why a request may not be saved. */
  ghost function SaveRefusal(cfg: Config, issuer: string, registry: map<string, Client>, req: AuthorizationRequest):
    (r: Option<Failure>)
    ensures r == None <==> MaySave(cfg, issuer, registry, req)
  {
    if req.id != "" then Some(Other)
    else if CheckUnsaved(req).Some? then CheckUnsaved(req)
    else if req.clientID !in registry then Some(Other)
    else if !CheckRequest(cfg, issuer, registry[req.clientID], req) then Some(InvalidAuthorizationRequest)
    else None
  }

  /** The saved request or why there is none, and the store afterwards. */
  ghost function SaveOutcome(cfg: Config, c: Contents, issuer: string, registry: map<string, Client>,
                             req: AuthorizationRequest, id: string, binding: Option<Hash>, now: Time, faults: Faults):
    (Result<AuthorizationRequest, Failure>, Contents)
  {
    var d := Collect(c, now);
    match SaveRefusal(cfg, issuer, registry, req)
    case Some(e) => (Err(e), c)
    case None =>
      var saved := SavedRecord(cfg, registry[req.clientID], req, id, binding);
      if faults.create then (Err(Other), c)
      else if id in d.requests then (Err(Other), d)
      else (Ok(saved), d.(requests := d.requests[id := saved]))
  }

  method SaveAuthorizationRequest(cfg: Config, store: Store, issuer: string, registry: map<string, Client>,
                                  req: AuthorizationRequest, id: string, binding: Option<Hash>, now: Time,
                                  faults: Faults)
    returns (r: Result<AuthorizationRequest, Failure>)
    modifies store
    ensures (r, store.Value()) == SaveOutcome(cfg, old(store.Value()), issuer, registry, req, id, binding, now, faults)
    ensures r.Ok? ==>
      && id in store.requests && store.requests[id] == r.value && !r.value.parsed
      && r.value.bindingHash == (if binding.Some? then binding.value else req.bindingHash)
  {
    if req.id != "" {
      return Err(Other);
    }
    var unsaved := CheckUnsaved(req);
    if unsaved.Some? {
      return Err(unsaved.value);
    }
    if req.clientID !in registry {
      return Err(Other);
    }
    var client := registry[req.clientID];
    var ok := RunCheckRequest(cfg, issuer, client, req);
    if !ok {
      return Err(InvalidAuthorizationRequest);
    }
    if faults.create {
      return Err(Other);
    }
    var claims := ComputeClaimsForClient(cfg, client, req.claims);
    var saved := req.(parsed := false, id := id, claims := claims);
    if binding.Some? {
      saved := saved.(bindingHash := binding.value);
    }
    var created := store.CreateAuthorizationRequest(saved, now);
    return if created.Err? then Err(Other) else Ok(saved);
  }

  // --- Round trips ------------------------------------------------------------------------

  /** The request_uri of a reference refers to its storage ID, and to nothing else
      does any other string. */
  lemma RequestURIRoundTrip(uri: string, ref: string)
    requires Ref(ref)
    ensures Referenced(uri) == Some(StorageID(ref)) <==> uri == RequestURI(ref)
  {
    if Referenced(uri) == Some(StorageID(ref)) {
      var rest := uri[|REQUEST_URI_PREFIX|..];
      assert StorageID(rest)[|PUSHED_PREFIX|..] == rest && StorageID(ref)[|PUSHED_PREFIX|..] == ref;
      assert uri == uri[..|REQUEST_URI_PREFIX|] + rest;
    } else {
      assert RequestURI(ref)[|REQUEST_URI_PREFIX|..] == ref
        && RequestURI(ref)[..|REQUEST_URI_PREFIX|] == REQUEST_URI_PREFIX;
    }
  }

  /** The IDs of saved requests are never those of pushed ones. */
  lemma RefIsNotPushed(ref: string)
    requires Ref(ref)
    ensures !HasPrefix(ref, PUSHED_PREFIX)
  {
    assert ref[..|PUSHED_PREFIX|][3] == ref[3] && UnreservedChar(ref[3]);
    assert PUSHED_PREFIX[3] == ':';
  }

  /** While it has not expired, a pushed request can be redeemed with its
      request_uri by the client that pushed it, comes back with the protocol fields
      that were pushed and passes the check for an unchanged registration. No other
      client can redeem it, and it is not reachable as a saved request. */
  lemma PushRedeemRoundTrip(cfg: Config, c: Contents, issuer: string, registry: map<string, Client>,
                            req: AuthorizationRequest, ref: string, pushedAt: Time, clientID: string,
                            binding: string, now: Time)
    requires MayPush(cfg, issuer, registry, req) && Ref(ref)
    requires StorageID(ref) in c.requests
    requires c.requests[StorageID(ref)] == PushedRecord(cfg, registry[req.clientID], req, ref, pushedAt)
    ensures var p := c.requests[StorageID(ref)];
      && (Redeemable(c, issuer, clientID, RequestURI(ref), now) == Some(p) <==>
            clientID == req.clientID && now < pushedAt + cfg.lifetimes.pushedRequest)
      && CheckRequest(cfg, issuer, registry[req.clientID], p)
      && SameProtocolFields(RedeemedRequest(cfg, p, now), req.(pushed := true))
      && CheckUnsaved(RedeemedRequest(cfg, p, now)) == None
      && LoadPending(c, issuer, StorageID(ref), binding, now) == None
  {
    RequestURIRoundTrip(RequestURI(ref), ref);
    assert StorageID(ref)[..|PUSHED_PREFIX|] == PUSHED_PREFIX;
  }

  /** Pushing and then redeeming: the response's request_uri works once for the client,
      for the advertised time, and a second use is answered like an unknown one. */
  lemma PushThenRedeemOnce(cfg: Config, c: Contents, issuer: string, registry: map<string, Client>,
                           req: AuthorizationRequest, ref: string, pushedAt: Time, q: Parameters, now: Time,
                           again: Time, n: string)
    requires Ref(ref) && PushOutcome(cfg, c, issuer, registry, req, ref, pushedAt, NO_FAULTS).0.Ok?
    requires q.repeated == {} && q.Get("client_id") == req.clientID
    requires var o := PushOutcome(cfg, c, issuer, registry, req, ref, pushedAt, NO_FAULTS);
      q.Get("request_uri") == o.0.value.requestURI
    ensures var pushed := PushOutcome(cfg, c, issuer, registry, req, ref, pushedAt, NO_FAULTS);
      var r := RedeemOutcome(cfg, pushed.1, issuer, registry, q, now, NO_FAULTS);
      && (r.0.Ok? <==> now < pushedAt + cfg.lifetimes.pushedRequest)
      && pushed.0.value.expiresIn * SECOND <= cfg.lifetimes.pushedRequest < (pushed.0.value.expiresIn + 1) * SECOND
      && (r.0.Ok? ==>
            && r.0.value == req.(pushed := true, parsed := true, redeemed := true, pushedBy := "", bindingHash := "",
                 claims := r.0.value.claims, createdAt := now, expiresAt := now + cfg.lifetimes.authorizationRequest)
            && MayReceive(cfg, registry[req.clientID], req.claims, r.0.value.claims, n)
            && RedeemOutcome(cfg, r.1, issuer, registry, q, again, NO_FAULTS) == (Err(InvalidURI), r.1))
  {
    var pushed := PushOutcome(cfg, c, issuer, registry, req, ref, pushedAt, NO_FAULTS);
    PushRedeemRoundTrip(cfg, pushed.1, issuer, registry, req, ref, pushedAt, req.clientID, "", now);
    RequestURIRoundTrip(RequestURI(ref), ref);
    ClaimsForClientExactly(cfg, registry[req.clientID], req.claims, n);
  }

  /** A saved request can be completed as it was saved, by the user agent it is
      bound to and by no other, while it has not expired and nobody completed it. */
  lemma SaveLoadRoundTrip(cfg: Config, c: Contents, issuer: string, registry: map<string, Client>,
                          req: AuthorizationRequest, id: string, cookie: Option<Hash>, binding: string, now: Time)
    requires MaySave(cfg, issuer, registry, req) && Ref(id) && id in c.requests
    requires c.requests[id] == SavedRecord(cfg, registry[req.clientID], req, id, cookie)
    ensures Current(c, issuer, binding, c.requests[id], now) == Ok(c.requests[id]) <==>
      now < req.expiresAt && (c.requests[id].bindingHash in {"", binding})
    ensures CheckRequest(cfg, issuer, registry[req.clientID], c.requests[id])
  {
    RefIsNotPushed(id);
  }

  // --- What is saved, pushed and redeemed -------------------------------------------------

  /** A request may be saved if and only if it is unsaved, was parsed or redeemed as it
      claims, and its client is registered and allowed what it asks for. What is saved
      is the request under its new ID, with the claims its client may receive, bound to
      the cookie if there is one, and no longer completable unsaved; everything else
      that was stored stays, unless it expired and was collected. */
  lemma SavedExactly(cfg: Config, c: Contents, issuer: string, registry: map<string, Client>, req: AuthorizationRequest,
                     id: string, cookie: Option<Hash>, now: Time, n: string)
    requires id !in c.requests
    ensures var o := SaveOutcome(cfg, c, issuer, registry, req, id, cookie, now, NO_FAULTS);
      && (o.0.Ok? <==>
            req.id == "" && req.parsed && (req.pushed <==> req.redeemed)
            && req.clientID in registry && CheckRequest(cfg, issuer, registry[req.clientID], req))
      && (o.0.Err? ==> o.1 == c)
      && (o.0.Ok? ==>
            var saved := o.0.value;
            && id in o.1.requests && o.1.requests[id] == saved
            && saved == req.(id := id, parsed := false, claims := saved.claims, bindingHash := saved.bindingHash)
            && saved.bindingHash == (if cookie.Some? then cookie.value else req.bindingHash)
            && MayReceive(cfg, registry[req.clientID], req.claims, saved.claims, n)
            && OtherRequestsStay(c, o.1, id, now))
  {
    if req.clientID in registry { ClaimsForClientExactly(cfg, registry[req.clientID], req.claims, n); }
  }

  /** Of the requested claims exactly those that the client may receive are kept. */
  ghost predicate MayReceive(cfg: Config, client: Client, asked: Option<ClaimsRequest>, kept: Option<ClaimsRequest>,
                             n: string) {
    && (n in UserInfoPart(kept) <==> n in UserInfoPart(asked) && Receivable(cfg, client, n))
    && (n in UserInfoPart(kept) ==> UserInfoPart(kept)[n] == UserInfoPart(asked)[n])
    && (n in IDTokenPart(kept) <==> n in IDTokenPart(asked) && Receivable(cfg, client, n))
    && (n in IDTokenPart(kept) ==> IDTokenPart(kept)[n] == IDTokenPart(asked)[n])
  }

  ghost predicate OtherRequestsStay(c: Contents, d: Contents, id: string, now: Time) {
    && (forall k :: k in d.requests && k != id ==> k in c.requests && d.requests[k] == c.requests[k])
    && (forall k :: k in c.requests && k !in d.requests && k != id ==> Collectable(now, c.requests[k].expiresAt))
    && (forall h :: h in d.tokens ==> h in c.tokens && d.tokens[h] == c.tokens[h])
    && (forall h :: h in c.tokens && h !in d.tokens ==> Collectable(now, c.tokens[h].expiresAt))
  }

  /** A request that was saved with a cookie is found by its ID, and can be completed
      unchanged, with that cookie, in time and in no other way. */
  lemma BoundToItsCookie(cfg: Config, c: Contents, issuer: string, registry: map<string, Client>,
                         req: AuthorizationRequest,
                         id: string, cookie: Hash, savedAt: Time, binding: string, now: Time)
    requires Ref(id) && cookie != ""
    requires SaveOutcome(cfg, c, issuer, registry, req, id, Some(cookie), savedAt, NO_FAULTS).0.Ok?
    ensures var o := SaveOutcome(cfg, c, issuer, registry, req, id, Some(cookie), savedAt, NO_FAULTS);
      && (LoadPending(o.1, issuer, id, binding, now) == Some(o.0.value) <==> binding == cookie && now < req.expiresAt)
      && (LoadPending(o.1, issuer, id, binding, now) == None <==> binding != cookie || now >= req.expiresAt)
      && (Completable(cfg, o.1, issuer, registry, binding, o.0.value, true, now).Ok? <==>
            binding == cookie && now < req.expiresAt)
      && (binding != cookie ==>
            Completable(cfg, o.1, issuer, registry, binding, o.0.value, true, now) == Err(RequestNotFound))
  {
    RefIsNotPushed(id);
    var saved := SaveOutcome(cfg, c, issuer, registry, req, id, Some(cookie), savedAt, NO_FAULTS).0.value;
    assert CheckRequest(cfg, issuer, registry[req.clientID], saved);
  }

  /** A push is accepted if and only if pushing is enabled and the request is unsaved,
      was parsed for the client it names, and is allowed for it. */
  lemma PushedExactly(cfg: Config, c: Contents, issuer: string, registry: map<string, Client>,
                      req: AuthorizationRequest,
                      ref: string, now: Time)
    requires StorageID(ref) !in c.requests
    ensures var o := PushOutcome(cfg, c, issuer, registry, req, ref, now, NO_FAULTS);
      && (o.0 == Err(NotEnabled) <==> cfg.par == Disabled)
      && (o.0.Ok? <==>
            cfg.par != Disabled && req.id == "" && req.pushedBy == req.clientID && req.clientID != ""
            && req.clientID in registry && CheckRequest(cfg, issuer, registry[req.clientID], req))
      && (o.0.Err? ==> o.1 == c)
      && (o.0.Ok? ==> OtherRequestsStay(c, o.1, StorageID(ref), now))
  {
  }

  /** Why a request_uri is not redeemed, and what is gone nevertheless. */
  lemma RedeemedExactly(cfg: Config, c: Contents, issuer: string, registry: map<string, Client>, q: Parameters,
                        now: Time,
                        faults: Faults)
    ensures var o := RedeemOutcome(cfg, c, issuer, registry, q, now, faults);
      var clientID, uri := q.Get("client_id"), q.Get("request_uri");
      if "client_id" in q.repeated || "request_uri" in q.repeated || clientID == "" then o == (Err(BadParameters), c)
      else if Referenced(uri) == None then o == (Err(InvalidURI), c)
      else if faults.load then o == (Err(RedeemFailed), c)
      else
        var id := Referenced(uri).value;
        if id !in c.requests then o == (Err(InvalidURI), c)
        else
          var p := c.requests[id];
          if p.id != id || !p.pushed || p.issuer != issuer || p.clientID != clientID || now >= p.expiresAt
          then o == (Err(InvalidURI), c)
          else if faults.delete then o == (Err(RedeemFailed), c)
          else
            && o.1 == c.(requests := c.requests - {id})
            && (clientID !in registry ==> o.0 == Err(NoClient))
            && (clientID in registry && !CheckRequest(cfg, issuer, registry[clientID], p) ==>
                  o.0 == Err(NoLongerMatches(CheckDelivery(cfg, issuer, registry[clientID], p))))
            && (clientID in registry && CheckRequest(cfg, issuer, registry[clientID], p) ==>
                  && o.0.Ok?
                  && o.0.value == p.(id := "", parsed := true, redeemed := true, createdAt := o.0.value.createdAt,
                       expiresAt := o.0.value.expiresAt)
                  && o.0.value.createdAt == now && o.0.value.expiresAt - now == cfg.lifetimes.authorizationRequest)
  {
  }

  /** Two registrations that the check cannot tell apart except by their ID. */
  ghost predicate SameRules(client: Client, other: Client) {
    && client.redirectURIs == other.redirectURIs && client.grantTypes == other.grantTypes
    && client.scopes == other.scopes && client.audience == other.audience && client.PkcePolicy() == other.PkcePolicy()
  }

  /** Redeeming vouches that some client pushed a request, not which one: with an
      edited ClientID the request passes for every client that the check cannot tell
      apart; without the edit it passes for no client but its own. */
  lemma RedeemedRequestsCanChangeClient(cfg: Config, issuer: string, client: Client, other: Client,
                                        p: AuthorizationRequest, now: Time)
    requires CheckRequest(cfg, issuer, client, p) && p.pushed
    ensures var edited := RedeemedRequest(cfg, p, now).(clientID := other.id);
      CheckUnsaved(edited) == None && (SameRules(client, other) ==> CheckRequest(cfg, issuer, other, edited))
    ensures CheckRequest(cfg, issuer, other, p) ==> other.id == p.clientID
    ensures SameRules(client, other) && other.id == p.clientID ==> CheckRequest(cfg, issuer, other, p)
  {
    assert SameRules(client, other) ==> forall u :: MatchRedirectURI(cfg, client, u) == MatchRedirectURI(cfg, other, u);
  }
}
