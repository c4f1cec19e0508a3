/** Issuance planning (issue.go). */
module Issuance {
  import opened Basics
  import opened Records

  datatype Plan = Plan(
    scopes: seq<string>,
    audience: seq<string>,
    refresh: bool,
    format: string,
    accessClaims: map<string, Json>,
    idClaims: map<string, Json>,
    accessLifetime: Duration,
    refreshLifetime: Duration,
    idLifetime: Duration)

  /** Whatever Config.BeforeIssue does: it fails, or leaves the Issuance with
      these values. `accessIsJSON` and `idIsJSON` say whether the claims can be
      serialized. */
  datatype HookResult =
    | HookFails(error: Error)
    | Adjusts(
      scopes: seq<string>,
      refresh: bool,
      audience: seq<string>,
      format: string,
      accessClaims: map<string, Json>,
      accessIsJSON: bool,
      idClaims: map<string, Json>,
      idIsJSON: bool,
      accessLifetime: Duration,
      refreshLifetime: Duration,
      idLifetime: Duration)

  /** accessTokenProtectedClaims of accesstoken.go. */
  const ACCESS_PROTECTED: set<string> := {
    "iss", "sub", "aud", "exp", "nbf", "iat", "jti", "client_id", "scope",
    "auth_time", "acr", "amr", "cnf", "active", "token_type"}

  /** protocolClaims of claims.go. */
  const PROTOCOL_CLAIMS: set<string> := {
    "iss", "sub", "aud", "exp", "iat", "nbf", "jti", "auth_time", "nonce", "acr",
    "amr", "azp", "at_hash", "c_hash", "sid", "client_id", "scope", "cnf"}

  function FirstFormat(client: string, provider: string): string {
    if client != "" then client else if provider != "" then provider else FORMAT_OPAQUE
  }

  function FirstDuration(client: Duration, provider: Duration): Duration {
    if client > 0 then client else if provider > 0 then provider else 0
  }

  /** Claims with nil values are dropped. */
  function Normalized(claims: map<string, Json>): map<string, Json> {
    map name | name in claims && claims[name] != Null :: claims[name]
  }

  method NormalizeClaims(claims: map<string, Json>, isJSON: bool) returns (r: Option<map<string, Json>>)
    ensures r == if claims != map[] && !isJSON then None else Some(Normalized(claims))
  {
    if |claims| == 0 {
      assert claims == map[] && Normalized(claims) == map[];
      return Some(map[]);
    }
    if !isJSON {
      return None;
    }
    var out, pending := claims, claims.Keys;
    while pending != {}
      invariant pending <= claims.Keys
      invariant out == map name | name in claims && (name in pending || claims[name] != Null) :: claims[name]
      decreases |pending|
    {
      var name :| name in pending;
      if out[name] == Null {
        out := out - {name};
      }
      pending := pending - {name};
    }
    assert out == Normalized(claims);
    return Some(out);
  }

  function DefaultPlan(cfg: Config, client: Client, audience: seq<string>, scopes: seq<string>, withRefresh: bool):
    Plan
  {
    Plan(scopes, audience, withRefresh,
      FirstFormat(client.accessTokenFormat, cfg.accessTokenFormat), map[], map[],
      FirstDuration(client.accessTokenLifetime, cfg.lifetimes.accessToken),
      FirstDuration(client.refreshTokenLifetime, cfg.lifetimes.refreshToken),
      FirstDuration(client.idTokenLifetime, cfg.lifetimes.idToken))
  }

  /** The hook only narrowed what it may not widen. */
  ghost predicate Acceptable(cfg: Config, plan: Plan, got: HookResult) {
    && got.Adjusts?
    && SubsetOf(got.scopes, plan.scopes)
    && SubsetOf(got.audience, plan.audience)
    && (got.refresh ==> plan.refresh)
    && cfg.KnownFormat(got.format)
    && cfg.ValidLifetime(got.accessLifetime) && cfg.ValidLifetime(got.refreshLifetime)
    && cfg.ValidLifetime(got.idLifetime)
    && got.accessClaims.Keys !! ACCESS_PROTECTED
    && got.idClaims.Keys !! PROTOCOL_CLAIMS
    && (got.accessClaims == map[] || got.accessIsJSON)
    && (got.idClaims == map[] || got.idIsJSON)
  }

  function Adjusted(plan: Plan, got: HookResult): Plan
    requires got.Adjusts?
  {
    Plan(Dedup(got.scopes), Dedup(got.audience), got.refresh, got.format,
      Normalized(got.accessClaims), Normalized(got.idClaims),
      got.accessLifetime, got.refreshLifetime, got.idLifetime)
  }

  /** The outcome of planIssuance for whatever the hook does. */
  ghost function Planned(cfg: Config, client: Client, audience: seq<string>, scopes: seq<string>, withRefresh: bool,
                   hook: Option<HookResult>): Result<Plan, Error> {
    var plan := DefaultPlan(cfg, client, audience, scopes, withRefresh);
    if hook.Some? && hook.value.HookFails? then Err(hook.value.error)
    else if hook.Some? && !Acceptable(cfg, plan, hook.value) then Err(ServerError)
    else
      var p := if hook.Some? then Adjusted(plan, hook.value) else plan;
      if p.format == FORMAT_JWT && p.audience == [] then Err(ServerError) else Ok(p)
  }

  /** runBeforeIssue: on success the fields of the plan are replaced. */
  method RunBeforeIssue(cfg: Config, plan0: Plan, got: HookResult) returns (plan: Plan, err: Option<Error>)
    ensures got.HookFails? ==> err == Some(got.error)
    ensures got.Adjusts? ==> err == (if Acceptable(cfg, plan0, got) then None else Some(ServerError))
    ensures plan == if err == None then Adjusted(plan0, got) else plan0
    ensures err == None ==> ListsExactly(plan.scopes, got.scopes) && ListsExactly(plan.audience, got.audience)
    ensures err == None ==>
      && plan.refresh == got.refresh && plan.format == got.format && plan.accessLifetime == got.accessLifetime
      && plan.refreshLifetime == got.refreshLifetime && plan.idLifetime == got.idLifetime
      && NonNullEntries(plan.accessClaims, got.accessClaims) && NonNullEntries(plan.idClaims, got.idClaims)
  {
    plan := plan0;
    if got.HookFails? {
      return plan, Some(got.error);
    }
    var scopes := Select(plan.scopes, got.scopes);
    if scopes == None {
      return plan, Some(ServerError);
    }
    var audience := Select(plan.audience, got.audience);
    if audience == None {
      return plan, Some(ServerError);
    }
    if got.refresh && !plan.refresh {
      return plan, Some(ServerError);
    }
    if !cfg.KnownFormat(got.format) {
      return plan, Some(ServerError);
    }
    if !cfg.ValidLifetime(got.accessLifetime) || !cfg.ValidLifetime(got.refreshLifetime)
       || !cfg.ValidLifetime(got.idLifetime) {
      return plan, Some(ServerError);
    }
    var ok := NamesClear(got.accessClaims.Keys, ACCESS_PROTECTED);
    if !ok {
      return plan, Some(ServerError);
    }
    ok := NamesClear(got.idClaims.Keys, PROTOCOL_CLAIMS);
    if !ok {
      return plan, Some(ServerError);
    }
    var accessClaims := NormalizeClaims(got.accessClaims, got.accessIsJSON);
    if accessClaims == None {
      return plan, Some(ServerError);
    }
    var idClaims := NormalizeClaims(got.idClaims, got.idIsJSON);
    if idClaims == None {
      return plan, Some(ServerError);
    }
    plan := plan.(scopes := scopes.value, audience := audience.value, refresh := got.refresh, format := got.format,
      accessClaims := accessClaims.value, idClaims := idClaims.value, accessLifetime := got.accessLifetime,
      refreshLifetime := got.refreshLifetime, idLifetime := got.idLifetime);
    return plan, None;
  }

  /** Whether no name is protected. */
  method NamesClear(names: set<string>, protected: set<string>) returns (ok: bool)
    ensures ok <==> names !! protected
  {
    var pending := names;
    while pending != {}
      invariant pending <= names && (names - pending) !! protected
      decreases |pending|
    {
      var name :| name in pending;
      if name in protected {
        return false;
      }
      pending := pending - {name};
    }
    return true;
  }

  method PlanIssuance(cfg: Config, client: Client, audience: seq<string>, scopes: seq<string>, withRefresh: bool,
                      hook: Option<HookResult>) returns (r: Result<Plan, Error>)
    ensures r == Planned(cfg, client, audience, scopes, withRefresh, hook)
  {
    var plan := DefaultPlan(cfg, client, audience, scopes, withRefresh);
    if hook.Some? {
      var err;
      plan, err := RunBeforeIssue(cfg, plan, hook.value);
      if err.Some? {
        return Err(err.value);
      }
    }
    if plan.format == FORMAT_JWT && plan.audience == [] {
      return Err(ServerError);
    }
    return Ok(plan);
  }

  /** What may be minted for scopes and an audience. */
  ghost predicate SafePlan(cfg: Config, plan: Plan, audience: seq<string>, scopes: seq<string>, withRefresh: bool) {
    && SubsetOf(plan.scopes, scopes) && (NoDup(scopes) ==> NoDup(plan.scopes))
    && SubsetOf(plan.audience, audience) && (NoDup(audience) ==> NoDup(plan.audience))
    && (plan.refresh ==> withRefresh)
    && cfg.KnownFormat(plan.format)
    && plan.accessLifetime >= SECOND && plan.refreshLifetime >= SECOND && plan.idLifetime >= SECOND
    && plan.accessClaims.Keys !! ACCESS_PROTECTED
    && plan.idClaims.Keys !! PROTOCOL_CLAIMS
    && (forall name :: name in plan.accessClaims ==> plan.accessClaims[name] != Null)
    && (plan.format == FORMAT_JWT ==> plan.audience != [])
  }

  /** Whatever the hook returns, planning fails or its result is safe. */
  lemma AnyHookIsSafe(cfg: Config, client: Client, audience: seq<string>, scopes: seq<string>, withRefresh: bool,
                      hook: Option<HookResult>)
    requires cfg.Valid() && cfg.Registered(client, client.id)
    ensures var r := Planned(cfg, client, audience, scopes, withRefresh, hook);
      r.Ok? ==> SafePlan(cfg, r.value, audience, scopes, withRefresh)
  {
  }

  /** Without a hook, planning only fails for a JWT without an audience. */
  lemma PlanWithoutHook(cfg: Config, client: Client, audience: seq<string>, scopes: seq<string>, withRefresh: bool)
    ensures var r := Planned(cfg, client, audience, scopes, withRefresh, None);
      && (r.Ok? <==> !(FirstFormat(client.accessTokenFormat, cfg.accessTokenFormat) == FORMAT_JWT && audience == []))
      && (r.Ok? ==> r.value.scopes == scopes && r.value.audience == audience && r.value.refresh == withRefresh)
  {
  }

  // --- What a plan says ------------------------------------------------------------

  /** The same values, each once. */
  ghost predicate ListsExactly(got: seq<string>, wanted: seq<string>) {
    NoDup(got) && SubsetOf(got, wanted) && SubsetOf(wanted, got)
  }

  /** The lifetime of the hook, without a hook the client's where one is set, and
      otherwise the provider's. */
  ghost predicate LifetimeFor(d: Duration, hook: Option<Duration>, client: Duration, provider: Duration) {
    && (hook.Some? ==> d == hook.value)
    && (hook == None && client != 0 ==> d == client)
    && (hook == None && client == 0 ==> d == provider)
  }

  function HookAccessLifetime(hook: Option<HookResult>): Option<Duration> {
    if hook.Some? && hook.value.Adjusts? then Some(hook.value.accessLifetime) else None
  }

  function HookRefreshLifetime(hook: Option<HookResult>): Option<Duration> {
    if hook.Some? && hook.value.Adjusts? then Some(hook.value.refreshLifetime) else None
  }

  function HookIDLifetime(hook: Option<HookResult>): Option<Duration> {
    if hook.Some? && hook.value.Adjusts? then Some(hook.value.idLifetime) else None
  }

  /** Every lifetime of a plan comes from where it should. */
  lemma PlannedLifetimes(cfg: Config, client: Client, audience: seq<string>, scopes: seq<string>, withRefresh: bool,
                         hook: Option<HookResult>)
    requires cfg.Valid() && cfg.Registered(client, client.id)
    ensures var r := Planned(cfg, client, audience, scopes, withRefresh, hook);
      r.Ok? ==>
        && LifetimeFor(r.value.accessLifetime, HookAccessLifetime(hook), client.accessTokenLifetime,
             cfg.lifetimes.accessToken)
        && LifetimeFor(r.value.refreshLifetime, HookRefreshLifetime(hook), client.refreshTokenLifetime,
             cfg.lifetimes.refreshToken)
        && LifetimeFor(r.value.idLifetime, HookIDLifetime(hook), client.idTokenLifetime, cfg.lifetimes.idToken)
  {
  }

  /** Exactly the non-null entries. */
  ghost predicate NonNullEntries(got: map<string, Json>, all: map<string, Json>) {
    && (forall name :: name in got ==> name in all && got[name] == all[name] != Null)
    && (forall name :: name in all && all[name] != Null ==> name in got)
  }

  /** An accepted hook result is what is issued: its scopes and its audience without
      duplicates, its choice of refresh token and format, and its claims without null
      values. */
  lemma HookIsFollowed(cfg: Config, client: Client, audience: seq<string>, scopes: seq<string>, withRefresh: bool,
                       got: HookResult)
    ensures var r := Planned(cfg, client, audience, scopes, withRefresh, Some(got));
      r.Ok? ==>
        && got.Adjusts?
        && ListsExactly(r.value.scopes, got.scopes) && ListsExactly(r.value.audience, got.audience)
        && r.value.refresh == got.refresh && r.value.format == got.format
        && NonNullEntries(r.value.accessClaims, got.accessClaims) && NonNullEntries(r.value.idClaims, got.idClaims)
  {
  }

  /** A hook result is accepted if and only if it only narrows, knows its format,
      keeps lifetimes of a second, leaves protocol claims alone, has serializable
      claims and an audience for JWT. A failing hook's own error is passed on. */
  lemma HookIsAcceptedExactly(cfg: Config, client: Client, audience: seq<string>, scopes: seq<string>,
                              withRefresh: bool, got: HookResult)
    ensures var r := Planned(cfg, client, audience, scopes, withRefresh, Some(got));
      && (got.HookFails? ==> r == Err(got.error))
      && (got.Adjusts? && r.Err? ==> r.error == ServerError)
      && (got.Adjusts? ==> (r.Ok? <==>
            && (forall s :: s in got.scopes ==> s in scopes) && (forall x :: x in got.audience ==> x in audience)
            && (got.refresh ==> withRefresh)
            && (got.format == FORMAT_OPAQUE || got.format == FORMAT_JWT || got.format in cfg.customFormats)
            && (got.format == FORMAT_JWT ==> got.audience != [])
            && got.accessLifetime >= SECOND && got.refreshLifetime >= SECOND && got.idLifetime >= SECOND
            && (forall n :: n in got.accessClaims ==> n !in ACCESS_PROTECTED && got.accessIsJSON)
            && (forall n :: n in got.idClaims ==> n !in PROTOCOL_CLAIMS && got.idIsJSON)))
  {
    if got.Adjusts? {
      assert got.audience != [] ==> got.audience[0] in Dedup(got.audience);
      assert got.accessClaims != map[] ==> exists n :: n in got.accessClaims;
      assert got.idClaims != map[] ==> exists n :: n in got.idClaims;
    }
  }

  /** Without a hook everything that was granted is issued, in the client's format
      where one is set and otherwise the provider's, with no claims of its own. */
  lemma NothingIsAddedWithoutHook(cfg: Config, client: Client, audience: seq<string>, scopes: seq<string>,
                                  withRefresh: bool)
    requires cfg.accessTokenFormat != ""
    ensures var r := Planned(cfg, client, audience, scopes, withRefresh, None);
      var format := if client.accessTokenFormat != "" then client.accessTokenFormat else cfg.accessTokenFormat;
      && (r.Ok? <==> (format == FORMAT_JWT ==> audience != []))
      && (r.Err? ==> r.error == ServerError)
      && (r.Ok? ==>
            && r.value.scopes == scopes && r.value.audience == audience && r.value.refresh == withRefresh
            && r.value.format == format && r.value.accessClaims == map[] && r.value.idClaims == map[])
  {
  }
}
