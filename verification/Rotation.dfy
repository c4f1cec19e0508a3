/** Completeness of redemption and rotation (token.go): when nothing fails, a
    valid request for an unused, unexpired token succeeds, and refresh tokens can
    be rotated any number of times. */
module Rotation {
  import opened Basics
  import opened Records
  import opened Params
  import opened Issuance
  import opened Exchange
  import opened Failures

  function Total(script: seq<Turn>): nat {
    if script == [] then 0 else script[0].advance + Total(script[1..])
  }

  /** The time when the script has been played. */
  function Horizon(w: World): Time {
    w.now + Total(w.script)
  }

  /** The request matches the token and passes every check. */
  ghost predicate Matches(cfg: Config, t: Token, a: Attempt) {
    && a.client.AllowsGrant(GrantOf(a.kind)) && a.value != "" && a.access != ""
    && t.kind == a.kind && t.issuer == a.issuer && t.clientID == a.client.id
    && PreCheck(cfg, t, a) == None
    && PlanAttempt(cfg, t, a).Ok?
  }

  predicate Has(w: World, t: Token) {
    t.hash in w.tokens && w.tokens[t.hash] == t
  }

  lemma {:induction false} StoreSucceeds(w: World, records: seq<Token>)
    requires AllSucceed(w.script) && NewRecords(w, records)
    ensures var o := StoreTokens(w, records);
      && o.result.Ok? && AllSucceed(o.world.script) && Horizon(o.world) == Horizon(w)
      && (records != [] ==> Has(o.world, records[|records|-1]))
    decreases records
  {
    if records != [] {
      var o := CreateToken(w, records[0]);
      TickScript(w);
      CreateKeeps(w, records[0], {records[0].hash});
      var rest := records[1..];
      assert NewRecords(o.world, rest) by {
        forall i | 0 <= i < |rest| ensures rest[i].hash !in o.world.tokens {
          assert rest[i] == records[i+1];
        }
      }
      StoreSucceeds(o.world, rest);
      if rest == [] {
        assert records[|records|-1] == records[0];
      } else {
        assert rest[|rest|-1] == records[|records|-1];
      }
    }
  }

  lemma StoreAndConsumeSucceeds(w: World, records: seq<Token>, h: Hash)
    requires AllSucceed(w.script) && NewRecords(w, records) && records != []
    requires h in w.tokens && w.tokens[h].consumedAt == None && Horizon(w) < w.tokens[h].expiresAt
    ensures var o := StoreAndConsume(w, records, h);
      && o.result.Ok? && AllSucceed(o.world.script) && Horizon(o.world) == Horizon(w)
      && h in o.world.tokens && o.world.tokens[h].consumedAt.Some?
      && Has(o.world, records[|records|-1])
  {
    var stored := StoreTokens(w, records);
    HashesExact(records);
    StoreKeeps(w, records, HashesOf(records));
    StoreSucceeds(w, records);
    TickScript(stored.world);
    assert stored.world.now <= Horizon(w);
  }

  /** A matching request for an unused token succeeds if nothing fails before
      the token expires: the token is used up and the new refresh token, if one
      is issued, is stored. */
  lemma ExchangeSucceeds(cfg: Config, w: World, a: Attempt)
    requires a.value in w.tokens && w.tokens[a.value].consumedAt == None && Matches(cfg, w.tokens[a.value], a)
    requires AllSucceed(w.script) && FreshFor(w, a) && Horizon(w) < w.tokens[a.value].expiresAt
    ensures var t, o := w.tokens[a.value], Redeem(cfg, w, a);
      var plan := PlanAttempt(cfg, t, a).value;
      && o.result == Ok(Response(a, t, plan))
      && Horizon(o.world) == Horizon(w) && AllSucceed(o.world.script)
      && a.value in o.world.tokens && o.world.tokens[a.value].consumedAt.Some?
      && (plan.refresh ==> exists now :: w.now <= now && Has(o.world, RefreshRecord(t, plan, a.refresh, now)))
  {
    var t := w.tokens[a.value];
    var plan := PlanAttempt(cfg, t, a).value;
    var u := Tick(w);
    var m := Tick(u);
    TickScript(w);
    TickScript(u);
    assert Horizon(u) == Horizon(w) && Horizon(m) == Horizon(w) && u.now <= Horizon(w);
    var rs := Minted(t, plan, a.access, a.refresh, m.now);
    MintedNew(m, t, plan, a, m.now);
    StoreAndConsumeSucceeds(m, rs, a.value);
    assert Redeem(cfg, w, a) == Issue(cfg, u, t, a);
  }

  /** After an attempt that failed, wherever it failed, a matching request made
      with new random values succeeds. */
  lemma RetrySucceeds(cfg: Config, w: World, a: Attempt, b: Attempt, script: seq<Turn>)
    requires FreshFor(w, a) && a.value in w.tokens && w.tokens[a.value].consumedAt == None
    requires Redeem(cfg, w, a).result.Err? && AtMostOneFailure(w.script)
    requires b.value == a.value && Matches(cfg, w.tokens[a.value], b)
    requires var v := Redeem(cfg, w, a).world.(script := script);
      AllSucceed(script) && FreshFor(v, b) && Horizon(v) < w.tokens[a.value].expiresAt
    ensures Redeem(cfg, Redeem(cfg, w, a).world.(script := script), b).result.Ok?
  {
    FailureAtomicity(cfg, w, a);
    ExchangeSucceeds(cfg, Redeem(cfg, w, a).world.(script := script), b);
  }

  /** The registration still covers the token. */
  ghost predicate Covered(cfg: Config, client: Client, t: Token) {
    && SubsetOf(t.scopes, client.scopes) && SubsetOf(t.audience, client.audience)
    && (FirstFormat(client.accessTokenFormat, cfg.accessTokenFormat) == FORMAT_JWT ==> t.audience != [])
    && t.clientID == client.id
  }

  /** One refresh: the request and what happens while it is served. */
  datatype Refresh = Refresh(a: Attempt, script: seq<Turn>)

  /** How long the refresh tokens of a client live, unless a hook decides otherwise. */
  function RefreshLifetime(cfg: Config, client: Client): Duration {
    if client.refreshTokenLifetime != 0 then client.refreshTokenLifetime else cfg.lifetimes.refreshToken
  }

  /** A refresh of the token `h` by `client`, without a hook, and for scopes the token
      has. */
  ghost predicate Timely(w: World, client: Client, h: Hash, r: Refresh) {
    && r.a.kind == RefreshToken && r.a.client == client && r.a.value == h && h != "" && r.a.hook == None
    && r.a.access != "" && r.a.refresh != "" && FreshFor(w, r.a)
    && AllSucceed(r.script)
    && (h in w.tokens ==>
         && w.tokens[h].issuer == r.a.issuer
         && (r.a.scopes.Some? ==> SubsetOf(r.a.scopes.value, w.tokens[h].scopes)))
  }

  ghost function Served(cfg: Config, w: World, r: Refresh): Outcome<TokenResponse> {
    Redeem(cfg, w.(script := r.script), r.a)
  }

  /** Each refresh presents the refresh token the previous one returned, and ends less
      than a refresh token's lifetime after the previous one began; `since` is when the
      exchange that issued the first began. */
  ghost predicate TimelyChain(cfg: Config, w: World, client: Client, h: Hash, since: Time, rs: seq<Refresh>)
    decreases rs
  {
    rs != [] ==>
      && Timely(w, client, h, rs[0])
      && Horizon(w.(script := rs[0].script)) < since + RefreshLifetime(cfg, client)
      && TimelyChain(cfg, Served(cfg, w, rs[0]).world, client, rs[0].a.refresh, w.now, rs[1..])
  }

  /** Every refresh of the chain returns a new refresh token, and the full scope
      of the grant if it asked for no particular one. */
  ghost predicate AllServed(cfg: Config, w: World, scopes: seq<string>, rs: seq<Refresh>)
    decreases rs
  {
    rs == [] ||
    var o := Served(cfg, w, rs[0]);
    && o.result.Ok?
    && o.result.value.refreshToken == Some(rs[0].a.refresh)
    && (rs[0].a.scopes == None ==> o.result.value.scope == Join(scopes))
    && AllServed(cfg, o.world, scopes, rs[1..])
  }

  lemma RefreshMatches(cfg: Config, t: Token, r: Refresh)
    requires t.kind == RefreshToken && Covered(cfg, r.a.client, t) && r.a.client.AllowsGrant(GRANT_REFRESH)
    requires r.a.kind == RefreshToken && t.issuer == r.a.issuer && r.a.value != "" && r.a.access != ""
      && r.a.hook == None
    requires r.a.scopes.Some? ==> SubsetOf(r.a.scopes.value, t.scopes)
    ensures Matches(cfg, t, r.a)
    ensures PlanAttempt(cfg, t, r.a).value.refresh
    ensures r.a.scopes == None ==> PlanAttempt(cfg, t, r.a).value.scopes == t.scopes
    ensures cfg.Valid() && cfg.Registered(r.a.client, r.a.client.id) ==>
      PlanAttempt(cfg, t, r.a).value.refreshLifetime == RefreshLifetime(cfg, r.a.client)
  {
    var scopes := NarrowScopes(t.scopes, r.a.scopes).value;
    PlanWithoutHook(cfg, r.a.client, t.audience, scopes, true);
    if cfg.Valid() && cfg.Registered(r.a.client, r.a.client.id) {
      PlannedLifetimes(cfg, r.a.client, t.audience, scopes, true, None);
    }
  }

  /** Any number of refreshes succeeds, one after the other. */
  lemma {:induction false} RotationNeverEnds(cfg: Config, w: World, client: Client, h: Hash, since: Time,
                                             rs: seq<Refresh>)
    requires cfg.Valid() && cfg.Registered(client, client.id)
    requires h in w.tokens && w.tokens[h].expiresAt >= since + RefreshLifetime(cfg, client)
    requires w.tokens[h].kind == RefreshToken && w.tokens[h].consumedAt == None
    requires Covered(cfg, client, w.tokens[h]) && client.AllowsGrant(GRANT_REFRESH)
    requires TimelyChain(cfg, w, client, h, since, rs)
    ensures AllServed(cfg, w, w.tokens[h].scopes, rs)
    decreases rs
  {
    if rs != [] {
      var r := rs[0];
      var t := w.tokens[h];
      RefreshMatches(cfg, t, r);
      ExchangeSucceeds(cfg, w.(script := r.script), r.a);
      RotationNeverEnds(cfg, Served(cfg, w, r).world, client, r.a.refresh, w.now, rs[1..]);
    }
  }
}
