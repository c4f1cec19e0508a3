/** What completing a request amounts to (approve.go): which requests and approvals
    are accepted, what the code says, and what a denial does. */
module Completions {
  import opened Basics
  import opened Records
  import opened Memory
  import opened Reads
  import opened Issuance
  import opened Claims
  import opened Authorization
  import opened Approvals

  /** The request as it was parsed or saved: what the application passes does not
      matter once it is saved. */
  function Demanded(c: Contents, req: AuthorizationRequest): AuthorizationRequest {
    if req.id != "" && req.id in c.requests then c.requests[req.id] else req
  }

  /** The two differ at most in what only informs the application or the provider. */
  predicate SameDemand(stored: AuthorizationRequest, req: AuthorizationRequest) {
    req == stored.(
      id := req.id, claims := req.claims, extra := req.extra, bindingHash := req.bindingHash, parsed := req.parsed,
      pushedBy := req.pushedBy, redeemed := req.redeemed, createdAt := req.createdAt, expiresAt := req.expiresAt)
  }

  /** A request in time that its own user agent may complete: saved under a proper ID
      at this issuer and unchanged since, or unsaved as it was parsed or redeemed. */
  predicate Presentable(c: Contents, issuer: string, binding: string, req: AuthorizationRequest, now: Time) {
    if req.id != "" then
      && !HasPrefix(req.id, "par:") && req.id in c.requests
      && var stored := c.requests[req.id];
         && stored.id == req.id && stored.issuer == issuer && now < stored.expiresAt
         && (stored.bindingHash == "" || stored.bindingHash == binding)
         && SameDemand(stored, req)
    else req.parsed && (req.pushed <==> req.redeemed) && now < req.expiresAt
  }

  lemma CurrentExactly(c: Contents, issuer: string, binding: string, req: AuthorizationRequest, now: Time)
    ensures Current(c, issuer, binding, req, now).Ok? <==> Presentable(c, issuer, binding, req, now)
    ensures Presentable(c, issuer, binding, req, now) ==>
      Current(c, issuer, binding, req, now).value == Demanded(c, req) && Demanded(c, req).id == req.id
    ensures req.id != "" && Current(c, issuer, binding, req, now) == Err(Modified) ==>
      req.id in c.requests && !SameDemand(c.requests[req.id], req)
  {
  }

  // --- Claims ------------------------------------------------------------------------

  /** The essential acr values are the strings among the value and the values of an
      essential acr request, and no other request is essential. */
  lemma EssentialACRExactly(c: Option<ClaimsRequest>, v: string)
    ensures var e := EssentialACR(c);
      && (e.Some? <==> exists r :: "acr" in IDTokenPart(c) && IDTokenPart(c)["acr"] == Some(r) && r.essential)
      && (e.Some? ==> var r := IDTokenPart(c)["acr"].value;
            v in e.value <==> r.value == Json.Str(v) || Json.Str(v) in r.values)
  {
    if EssentialACR(c).Some? {
      var r := IDTokenPart(c)["acr"].value;
      StringsExactly([r.value], v);
      StringsExactly(r.values, v);
    }
  }

  lemma {:induction false} StringsExactly(values: seq<Json>, v: string)
    ensures v in Strings(values) <==> Json.Str(v) in values
  {
    if values != [] {
      StringsExactly(values[1..], v);
      assert values == [values[0]] + values[1..];
    }
  }

  // --- Which approvals are accepted ------------------------------------------------------

  /** An approval stays within the request: a proper subject, requested scopes, audiences
      and claims, and for an OpenID request the openid scope and the authentication the
      request demands. */
  ghost predicate Within(cfg: Config, client: Client, demanded: AuthorizationRequest, a: Approval, now: Time) {
    && 1 <= |a.subject| <= 255 && (forall ch :: ch in a.subject ==> ' ' <= ch <= '~')
    && (forall s :: s in a.scopes ==> s in demanded.scopes)
    && (forall x :: x in a.audience ==> x in demanded.audience)
    && (forall n :: n in a.claims ==>
          Receivable(cfg, client, n) && n !in PROTOCOL_CLAIMS
          && (n in UserInfoPart(demanded.claims) || n in IDTokenPart(demanded.claims)))
    && ("openid" in demanded.scopes ==> "openid" in a.scopes && Satisfies(demanded, a, now))
  }

  /** The end-user the client asked for has authenticated, during the request if the
      client demanded that and recently enough in any case, at one of the essential
      authentication classes. */
  ghost predicate Satisfies(demanded: AuthorizationRequest, a: Approval, now: Time) {
    && a.authTime.Some? && a.authTime.value <= now + MINUTE
    && (demanded.requestedSubject == "" || demanded.requestedSubject == a.subject)
    && ("login" in demanded.prompt || demanded.maxAge == Some(0) ==>
          a.authTime.value >= demanded.createdAt - demanded.createdAt % SECOND)
    && (demanded.maxAge.Some? && demanded.maxAge.value != 0 ==> now - a.authTime.value <= demanded.maxAge.value)
    && (EssentialACR(demanded.claims).Some? ==>
          a.acr != "" && (EssentialACR(demanded.claims).value == [] || a.acr in EssentialACR(demanded.claims).value))
  }

  lemma SubjectExactly(subject: string)
    ensures ValidSubject(subject) <==> 1 <= |subject| <= 255 && forall ch :: ch in subject ==> ' ' <= ch <= '~'
  {
    if forall ch :: ch in subject ==> ' ' <= ch <= '~' {
      forall i | 0 <= i < |subject| ensures 0x20 <= subject[i] as int <= 0x7e { assert subject[i] in subject; }
    }
  }

  lemma NamesExactly(cfg: Config, client: Client, c: Option<ClaimsRequest>, n: string)
    ensures n in Names(ClaimsForClient(cfg, client, c)) <==>
      Receivable(cfg, client, n) && n !in PROTOCOL_CLAIMS && (n in UserInfoPart(c) || n in IDTokenPart(c))
  {
    ClaimsForClientExactly(cfg, client, c, n);
  }

  lemma SatisfiesExactly(cfg: Config, client: Client, demanded: AuthorizationRequest, a: Approval, now: Time)
    ensures Satisfies(demanded, a, now) <==>
      AuthenticationOK(demanded.(claims := ClaimsForClient(cfg, client, demanded.claims)), a, now)
  {
    FilterKeepsACR(cfg, client, demanded.claims);
  }

  lemma WithinExactly(cfg: Config, client: Client, demanded: AuthorizationRequest, a: Approval, now: Time)
    ensures Within(cfg, client, demanded, a, now) <==>
      ApprovalOK(demanded.(claims := ClaimsForClient(cfg, client, demanded.claims)), a, now)
      && SubsetOf(a.audience, demanded.audience)
  {
    SubjectExactly(a.subject);
    SatisfiesExactly(cfg, client, demanded, a, now);
    forall n | n in a.claims
      ensures n in Names(ClaimsForClient(cfg, client, demanded.claims)) <==>
        Receivable(cfg, client, n) && n !in PROTOCOL_CLAIMS
        && (n in UserInfoPart(demanded.claims) || n in IDTokenPart(demanded.claims))
    {
      NamesExactly(cfg, client, demanded.claims, n);
    }
  }

  /** A saved request that is found: in time, at this issuer, by its own user agent. */
  predicate Findable(c: Contents, issuer: string, binding: string, id: string, now: Time) {
    && !HasPrefix(id, "par:") && id in c.requests
    && c.requests[id].id == id && c.requests[id].issuer == issuer && now < c.requests[id].expiresAt
    && (c.requests[id].bindingHash == "" || c.requests[id].bindingHash == binding)
  }

  /** Why a request cannot be completed, before its client is looked at. */
  ghost predicate Unpresentable(c: Contents, issuer: string, binding: string, req: AuthorizationRequest, now: Time,
                                e: Failure) {
    if req.id != "" then
      if !Findable(c, issuer, binding, req.id, now) then e == RequestNotFound
      else !SameDemand(c.requests[req.id], req) && e == Modified
    else if !req.parsed then e == Other
    else if req.pushed != req.redeemed then e == InvalidAuthorizationRequest
    else now >= req.expiresAt && e == RequestNotFound
  }

  lemma UnpresentableExactly(c: Contents, issuer: string, binding: string, req: AuthorizationRequest, now: Time)
    ensures !Presentable(c, issuer, binding, req, now) ==>
      var r := Current(c, issuer, binding, req, now); r.Err? && Unpresentable(c, issuer, binding, req, now, r.error)
  {
  }

  predicate NeedsAudience(cfg: Config, client: Client) {
    FORMAT_JWT == if client.accessTokenFormat != "" then client.accessTokenFormat else cfg.accessTokenFormat
  }

  /** Why an approval is refused, always without effect; and if there is no reason, a code
      is sent. A request that cannot be presented comes first, then an unknown client,
      then a request that its registration no longer allows, then an approval that does
      not stay within the request or lacks an audience. */
  lemma ApprovedExactly(cfg: Config, c: Contents, issuer: string, registry: map<string, Client>, binding: string,
                        req: AuthorizationRequest, a: Approval, now: Time, code: Hash, grantID: string)
    requires code !in c.tokens && cfg.accessTokenFormat != ""
    ensures var o := ApproveOutcome(cfg, c, issuer, registry, binding, req, a, now, code, grantID, NO_FAULTS);
      var demanded := Demanded(c, req);
      && (o.0.Refused? ==> o.1 == c)
      && (if !Presentable(c, issuer, binding, req, now)
          then o.0.Refused? && Unpresentable(c, issuer, binding, req, now, o.0.failure)
          else if demanded.clientID !in registry then o.0 == Refused(Other)
          else
            var client := registry[demanded.clientID];
            if !CheckRequest(cfg, issuer, client, demanded) then o.0 == Refused(InvalidAuthorizationRequest)
            else if !Within(cfg, client, demanded, a, now) || (NeedsAudience(cfg, client) && a.audience == [])
            then o.0 == Refused(InvalidApproval)
            else o.0 == CodeSent(code))
  {
    CurrentExactly(c, issuer, binding, req, now);
    UnpresentableExactly(c, issuer, binding, req, now);
    var demanded := Demanded(c, req);
    if demanded.clientID in registry {
      WithinExactly(cfg, registry[demanded.clientID], demanded, a, now);
    }
  }

  // --- What a code says -------------------------------------------------------------------

  /** The claims that a code carries: those of an OpenID request that were demanded,
      approved and receivable, as they were demanded. */
  ghost predicate CarriesClaims(cfg: Config, client: Client, demanded: AuthorizationRequest, a: Approval,
                                claims: Option<ClaimsRequest>, n: string) {
    if "openid" !in demanded.scopes then claims == None
    else
      && (n in UserInfoPart(claims) <==>
            n in UserInfoPart(demanded.claims) && n in a.claims && Receivable(cfg, client, n))
      && (n in UserInfoPart(claims) ==> UserInfoPart(claims)[n] == UserInfoPart(demanded.claims)[n])
      && (n in IDTokenPart(claims) <==>
            n in IDTokenPart(demanded.claims) && n in a.claims && Receivable(cfg, client, n))
      && (n in IDTokenPart(claims) ==> IDTokenPart(claims)[n] == IDTokenPart(demanded.claims)[n])
  }

  /** Whatever else was stored still is, unless it expired and was collected. */
  ghost predicate OthersStay(c: Contents, d: Contents, id: string, code: Hash, now: Time) {
    && (forall k :: k in d.requests ==> k in c.requests && d.requests[k] == c.requests[k] && (id != "" ==> k != id))
    && (forall k :: k in c.requests && k !in d.requests && (id != "" ==> k != id) ==>
          Collectable(now, c.requests[k].expiresAt))
    && (forall h :: h in d.tokens && h != code ==> h in c.tokens && d.tokens[h] == c.tokens[h])
    && (forall h :: h in c.tokens && h !in d.tokens ==> Collectable(now, c.tokens[h].expiresAt))
  }

  lemma CodeForSays(cfg: Config, issuer: string, client: Client, current: AuthorizationRequest, a: Approval, now: Time,
                    code: Hash, grantID: string)
    ensures var t := CodeFor(cfg, issuer, client, current, a, now, code, grantID);
      t.Ok? ==>
        && t.value.hash == code && CodeOf(cfg, issuer, current, a, now, grantID, t.value)
        && t.value.claims == if "openid" in current.scopes then Filtered(current.claims, set x | x in a.claims)
          else None
  {
  }

  lemma ClaimsSay(cfg: Config, client: Client, demanded: AuthorizationRequest, a: Approval, n: string)
    ensures var f := Filtered(ClaimsForClient(cfg, client, demanded.claims), set x | x in a.claims);
      CarriesClaims(cfg, client, demanded, a, if "openid" in demanded.scopes then f else None, n)
  {
    ClaimsForClientExactly(cfg, client, demanded.claims, n);
    FilteredExactly(ClaimsForClient(cfg, client, demanded.claims), set x | x in a.claims);
  }

  /** What an approval that sends a code did to the store. */
  lemma StoredCode(cfg: Config, c: Contents, issuer: string, registry: map<string, Client>, binding: string,
                   req: AuthorizationRequest, a: Approval, now: Time, code: Hash, grantID: string)
    requires ApproveOutcome(cfg, c, issuer, registry, binding, req, a, now, code, grantID, NO_FAULTS).0.CodeSent?
    ensures Demanded(c, req).clientID in registry
    ensures var o := ApproveOutcome(cfg, c, issuer, registry, binding, req, a, now, code, grantID, NO_FAULTS);
      var demanded := Demanded(c, req);
      var client := registry[demanded.clientID];
      var current := demanded.(claims := ClaimsForClient(cfg, client, demanded.claims));
      && o.0.code == code && code in o.1.tokens
      && CodeFor(cfg, issuer, client, current, a, now, code, grantID) == Ok(o.1.tokens[code])
      && OthersStay(c, o.1, req.id, code, now)
  {
    CurrentExactly(c, issuer, binding, req, now);
  }

  /** A code that is sent is stored and says what was approved, its request is gone if
      it was saved, and everything else stays. */
  lemma CodeSaysWhatWasApproved(cfg: Config, c: Contents, issuer: string, registry: map<string, Client>,
                                binding: string,
                                req: AuthorizationRequest, a: Approval, now: Time, code: Hash, grantID: string,
                                  n: string)
    requires ApproveOutcome(cfg, c, issuer, registry, binding, req, a, now, code, grantID, NO_FAULTS).0.CodeSent?
    ensures var o, demanded := ApproveOutcome(cfg, c, issuer, registry, binding, req, a, now, code, grantID, NO_FAULTS),
          Demanded(c, req);
      && o.0.code == code && code in o.1.tokens && CodeOf(cfg, issuer, demanded, a, now, grantID, o.1.tokens[code])
      && demanded.clientID in registry
      && CarriesClaims(cfg, registry[demanded.clientID], demanded, a, o.1.tokens[code].claims, n)
      && OthersStay(c, o.1, req.id, code, now)
  {
    StoredCode(cfg, c, issuer, registry, binding, req, a, now, code, grantID);
    var demanded := Demanded(c, req);
    var client := registry[demanded.clientID];
    var current := demanded.(claims := ClaimsForClient(cfg, client, demanded.claims));
    CodeForSays(cfg, issuer, client, current, a, now, code, grantID);
    ClaimsSay(cfg, client, demanded, a, n);
  }

  /** When storage fails: without the saved request, or if it cannot be deleted, the
      approval is refused without effect; if the code cannot be stored, the client gets
      an error, a saved request is gone all the same, and no token is new. */
  lemma FaultyApproval(cfg: Config, c: Contents, issuer: string, registry: map<string, Client>, binding: string,
                       req: AuthorizationRequest, a: Approval, now: Time, code: Hash, grantID: string, faults: Faults)
    ensures var o := ApproveOutcome(cfg, c, issuer, registry, binding, req, a, now, code, grantID, faults);
      var fine := ApproveOutcome(cfg, c, issuer, registry, binding, req, a, now, code, grantID, NO_FAULTS);
      && (o.0.Refused? ==> o.1 == c)
      && (o.0.CodeSent? ==> o == fine)
      && (o.0.ErrorSent? ==>
            && (faults.create || (code in c.tokens && fine == o))
            && (req.id != "" ==> req.id in c.requests && req.id !in o.1.requests)
            && (forall h :: h in o.1.tokens ==> h in c.tokens && o.1.tokens[h] == c.tokens[h]))
      && (fine.0.CodeSent? ==>
            if req.id != "" && (faults.load || faults.delete) then o.0 == Refused(Other)
            else if faults.create then o.0 == ErrorSent
            else o == fine)
  {
    CurrentExactly(c, issuer, binding, req, now);
  }

  // --- Denials -----------------------------------------------------------------------------

  ghost predicate PrintableCode(code: string) {
    code != "" && forall ch :: ch in code ==> ' ' <= ch <= '~' && ch != '"' && ch != '\\'
  }

  /** A denial is answered with its error, access_denied by default, if and only if the
      error is printable, the request presentable, its response deliverable and storage
      does not fail; then the request is gone if it was saved, and nothing else changed. Otherwise nothing
      changed at all. */
  lemma DeniedExactly(cfg: Config, c: Contents, issuer: string, registry: map<string, Client>, binding: string,
                      req: AuthorizationRequest, reason: Option<string>, now: Time, faults: Faults)
    ensures var o := DenyOutcome(cfg, c, issuer, registry, binding, req, reason, now, faults);
      var demanded := Demanded(c, req);
      && (o.0.DenialSent? <==>
            && (reason.Some? ==> PrintableCode(reason.value))
            && (req.id != "" ==> !faults.load && !faults.delete)
            && Presentable(c, issuer, binding, req, now) && demanded.clientID in registry
            && CheckDelivery(cfg, issuer, registry[demanded.clientID], demanded))
      && (o.0.DenialSent? ==>
            && o.0.error == (if reason.Some? then reason.value else "access_denied")
            && (req.id != "" ==> req.id in c.requests && req.id !in o.1.requests)
            && (forall k :: k in c.requests && (req.id == "" || k != req.id) ==>
                  k in o.1.requests && o.1.requests[k] == c.requests[k])
            && o.1.requests.Keys <= c.requests.Keys
            && o.1.tokens == c.tokens && o.1.claims == c.claims)
      && (!o.0.DenialSent? ==> o.0.Refused? && o.1 == c)
  {
    CurrentExactly(c, issuer, binding, req, now);
    PrintableExactly(if reason.Some? then reason.value else "access_denied");
  }

  lemma PrintableExactly(code: string)
    ensures ValidErrorCode(code) <==> PrintableCode(code)
  {
    if PrintableCode(code) {
      forall i | 0 <= i < |code| ensures 0x20 <= code[i] as int <= 0x7e && code[i] != '"' && code[i] != '\\' {
        assert code[i] in code;
      }
    }
  }
}
