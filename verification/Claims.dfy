/** End-user claims (claims.go, records.go): which names may be requested,
    approved and released. Lists of names are sets; the order in which Names
    sorts them is not modelled. */
module Claims {
  import opened Basics
  import opened Records
  import opened Issuance

  /** standardScopeClaims. */
  function StandardClaims(scope: string): set<string> {
    if scope == "profile" then {
      "name", "family_name", "given_name", "middle_name", "nickname", "preferred_username", "profile",
      "picture", "website", "gender", "birthdate", "zoneinfo", "locale", "updated_at"}
    else if scope == "email" then {"email", "email_verified"}
    else if scope == "address" then {"address"}
    else if scope == "phone" then {"phone_number", "phone_number_verified"}
    else {}
  }

  function ScopeClaims(cfg: Config, scope: string): set<string> {
    if scope in cfg.scopeClaims then set c | c in cfg.scopeClaims[scope] else StandardClaims(scope)
  }

  /** The claims a list of scopes gives access to. */
  function Mapped(cfg: Config, scopes: seq<string>): set<string> {
    set s, c | s in scopes && c in ScopeClaims(cfg, s) :: c
  }

  /** Claims whose requests affect authentication. */
  const AUTHENTICATION_CLAIMS := {"sub", "acr", "auth_time"}

  function Kept(m: map<string, Option<ClaimRequest>>, keep: set<string>): map<string, Option<ClaimRequest>> {
    map n | n in m && n in keep :: m[n]
  }

  /** ClaimsRequest.filter. */
  function Filtered(c: Option<ClaimsRequest>, keep: set<string>): Option<ClaimsRequest> {
    if c == None then None
    else
      var f := ClaimsRequest(Kept(c.value.userInfo, keep), Kept(c.value.idToken, keep));
      if f.userInfo == map[] && f.idToken == map[] then None else Some(f)
  }

  /** ClaimsRequest.Names. */
  function Names(c: Option<ClaimsRequest>): set<string> {
    if c == None then {} else c.value.userInfo.Keys + c.value.idToken.Keys - PROTOCOL_CLAIMS
  }

  function ClaimsForClient(cfg: Config, client: Client, c: Option<ClaimsRequest>): Option<ClaimsRequest> {
    Filtered(c, AUTHENTICATION_CLAIMS + Mapped(cfg, client.scopes))
  }

  function UserInfoNames(c: Option<ClaimsRequest>): set<string> {
    if c == None then {} else c.value.userInfo.Keys
  }

  function AllowedClaims(cfg: Config, scopes: seq<string>, requested: set<string>, includeScopes: bool): set<string> {
    (if includeScopes then Mapped(cfg, scopes) else {}) + requested
  }

  /** What endUserClaims keeps of the claims that Config.Claims returned. */
  function EndUserClaims(all: map<string, Json>, allowed: set<string>): map<string, Json> {
    map n | n in all && n in allowed && n !in PROTOCOL_CLAIMS && all[n] != Null :: all[n]
  }

  /** The UserInfo response for an access token. */
  function UserInfo(cfg: Config, t: Token, all: map<string, Json>): map<string, Json> {
    EndUserClaims(all, AllowedClaims(cfg, t.scopes, UserInfoNames(t.claims), true))["sub" := Str(t.subject)]
  }

  // --- The loops of the source -----------------------------------------------

  method AddScopeClaims(cfg: Config, scopes: seq<string>, base: set<string>) returns (allowed: set<string>)
    ensures allowed == base + Mapped(cfg, scopes)
  {
    allowed := base;
    for i := 0 to |scopes|
      invariant allowed == base + Mapped(cfg, scopes[..i])
    {
      allowed := allowed + ScopeClaims(cfg, scopes[i]);
      assert scopes[..i+1] == scopes[..i] + [scopes[i]];
      assert Mapped(cfg, scopes[..i+1]) == Mapped(cfg, scopes[..i]) + ScopeClaims(cfg, scopes[i]) by {
        var more := ScopeClaims(cfg, scopes[i]);
        forall c ensures c in Mapped(cfg, scopes[..i+1]) <==> c in Mapped(cfg, scopes[..i]) + more {
          if c in ScopeClaims(cfg, scopes[i]) {
            assert scopes[i] in scopes[..i+1];
          }
        }
      }
    }
    assert scopes[..|scopes|] == scopes;
  }

  method ComputeAllowedClaims(cfg: Config, t: Token, requested: set<string>, includeScopes: bool)
    returns (allowed: set<string>)
    ensures allowed == AllowedClaims(cfg, t.scopes, requested, includeScopes)
  {
    allowed := {};
    if includeScopes {
      allowed := AddScopeClaims(cfg, t.scopes, {});
    }
    allowed := allowed + requested;
  }

  method FilterMap(m: map<string, Option<ClaimRequest>>, keep: set<string>)
    returns (out: map<string, Option<ClaimRequest>>)
    ensures out == Kept(m, keep)
  {
    out := map[];
    var pending := m.Keys;
    while pending != {}
      invariant pending <= m.Keys
      invariant out == map n | n in m && n !in pending && n in keep :: m[n]
      decreases |pending|
    {
      var n :| n in pending;
      if n in keep {
        out := out[n := m[n]];
      }
      pending := pending - {n};
    }
  }

  method ComputeClaimsForClient(cfg: Config, client: Client, c: Option<ClaimsRequest>)
    returns (r: Option<ClaimsRequest>)
    ensures r == ClaimsForClient(cfg, client, c)
  {
    var allowed := AddScopeClaims(cfg, client.scopes, AUTHENTICATION_CLAIMS);
    if c == None {
      return None;
    }
    var idToken := FilterMap(c.value.idToken, allowed);
    var userInfo := FilterMap(c.value.userInfo, allowed);
    if idToken == map[] && userInfo == map[] {
      return None;
    }
    return Some(ClaimsRequest(userInfo, idToken));
  }

  method ComputeEndUserClaims(all: map<string, Json>, allowed: set<string>) returns (out: map<string, Json>)
    ensures out == EndUserClaims(all, allowed)
  {
    out := map[];
    if allowed == {} {
      return;
    }
    var pending := all.Keys;
    while pending != {}
      invariant pending <= all.Keys
      invariant out ==
        map n | n in all && n !in pending && n in allowed && n !in PROTOCOL_CLAIMS && all[n] != Null :: all[n]
      decreases |pending|
    {
      var n :| n in pending;
      if n in allowed && n !in PROTOCOL_CLAIMS && all[n] != Null {
        out := out[n := all[n]];
      }
      pending := pending - {n};
    }
  }

  // --- What the filters keep ---------------------------------------------------

  /** A claim that the client may receive: mapped from one of its scopes, or one whose
      request affects authentication. */
  ghost predicate Receivable(cfg: Config, client: Client, name: string) {
    || name == "sub" || name == "acr" || name == "auth_time"
    || exists s :: s in client.scopes && name in ScopeClaims(cfg, s)
  }

  ghost predicate KeepsExactly(kept: map<string, Option<ClaimRequest>>, all: map<string, Option<ClaimRequest>>,
                               keep: set<string>) {
    forall n :: (n in kept <==> n in all && n in keep) && (n in kept ==> kept[n] == all[n])
  }

  function UserInfoPart(c: Option<ClaimsRequest>): map<string, Option<ClaimRequest>> {
    if c.Some? then c.value.userInfo else map[]
  }

  function IDTokenPart(c: Option<ClaimsRequest>): map<string, Option<ClaimRequest>> {
    if c.Some? then c.value.idToken else map[]
  }

  lemma FilteredExactly(c: Option<ClaimsRequest>, keep: set<string>)
    ensures KeepsExactly(UserInfoPart(Filtered(c, keep)), UserInfoPart(c), keep)
    ensures KeepsExactly(IDTokenPart(Filtered(c, keep)), IDTokenPart(c), keep)
    ensures Filtered(c, keep).Some? ==>
      UserInfoPart(Filtered(c, keep)) != map[] || IDTokenPart(Filtered(c, keep)) != map[]
  {
    if c.Some? {
      var u, i := Kept(c.value.userInfo, keep), Kept(c.value.idToken, keep);
      assert KeepsExactly(u, c.value.userInfo, keep) && KeepsExactly(i, c.value.idToken, keep);
    }
  }

  /** Of a claims request the client's filter keeps exactly the receivable claims, as
      they were requested. */
  lemma ClaimsForClientExactly(cfg: Config, client: Client, c: Option<ClaimsRequest>, n: string)
    ensures var f := ClaimsForClient(cfg, client, c);
      && (n in UserInfoPart(f) <==> n in UserInfoPart(c) && Receivable(cfg, client, n))
      && (n in UserInfoPart(f) ==> UserInfoPart(f)[n] == UserInfoPart(c)[n])
      && (n in IDTokenPart(f) <==> n in IDTokenPart(c) && Receivable(cfg, client, n))
      && (n in IDTokenPart(f) ==> IDTokenPart(f)[n] == IDTokenPart(c)[n])
  {
    FilteredExactly(c, AUTHENTICATION_CLAIMS + Mapped(cfg, client.scopes));
    assert n in AUTHENTICATION_CLAIMS + Mapped(cfg, client.scopes) <==> Receivable(cfg, client, n);
  }

  // --- What may be released ----------------------------------------------------

  lemma MappedMonotone(cfg: Config, s: seq<string>, t: seq<string>)
    requires SubsetOf(s, t)
    ensures Mapped(cfg, s) <= Mapped(cfg, t)
  {
  }

  /** A name requested individually and kept by both filters is approved and
      mapped from a scope of the client, unless it is a protocol claim. */
  lemma ApprovedNames(cfg: Config, client: Client, requested: Option<ClaimsRequest>, approved: set<string>, n: string)
    requires n in UserInfoNames(Filtered(ClaimsForClient(cfg, client, requested), approved)) && n !in PROTOCOL_CLAIMS
    ensures n in approved && n in Mapped(cfg, client.scopes)
  {
  }

  /** Release bound: apart from sub, UserInfo releases nothing but claims mapped
      from the scopes of the access token and individually approved claims, all of
      them mapped from a scope the client was registered for when the grant was
      approved, and none of them a protocol claim. */
  lemma ReleaseBound(cfg: Config, client: Client, requested: Option<ClaimsRequest>, approved: set<string>, t: Token,
                     all: map<string, Json>, n: string)
    requires SubsetOf(t.scopes, client.scopes)
    requires t.claims == None || t.claims == Filtered(ClaimsForClient(cfg, client, requested), approved)
    requires n in UserInfo(cfg, t, all) && n != "sub"
    ensures n in Mapped(cfg, t.scopes) || n in approved
    ensures n in Mapped(cfg, client.scopes)
    ensures n !in PROTOCOL_CLAIMS
    ensures n in all && UserInfo(cfg, t, all)[n] == all[n] != Null
  {
    MappedMonotone(cfg, t.scopes, client.scopes);
    if n !in Mapped(cfg, t.scopes) {
      ApprovedNames(cfg, client, requested, approved, n);
    }
  }
}
