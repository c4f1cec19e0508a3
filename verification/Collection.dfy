/** Garbage collection is invisible to reads.

    A store that drops expired records (`Run`) is compared with one that never
    does (`RunUncollected`) over the same sequence of Storage calls, made with a
    clock that never goes back and with hashes and request IDs that are fresh. */
module Collection {
  import opened Basics
  import opened Records
  import opened Memory
  import opened Reads

  datatype Call =
    | CreateRequest(req: AuthorizationRequest)
    | DeleteRequest(id: string)
    | CreateToken(token: Token)
    | ConsumeToken(hash: Hash)
    | RevokeToken(hash: Hash)
    | RevokeGrant(grantID: string)
    | ClaimOnce(key: string, expiresAt: Time)

  datatype Event = Event(now: Time, call: Call)

  function PerformRequests(m: map<string, AuthorizationRequest>, call: Call): map<string, AuthorizationRequest> {
    match call
    case CreateRequest(req) => InsertRequest(m, req)
    case DeleteRequest(id) => m - {id}
    case _ => m
  }

  function PerformTokens(m: map<Hash, Token>, call: Call, now: Time): map<Hash, Token> {
    match call
    case CreateToken(t) => InsertToken(m, t)
    case ConsumeToken(h) => Consumed(m, h, now)
    case RevokeToken(h) => m - {h}
    case RevokeGrant(g) => WithoutGrant(m, g)
    case _ => m
  }

  function PerformClaims(m: map<string, Time>, call: Call, now: Time): map<string, Time> {
    match call
    case ClaimOnce(k, exp) => Claimed(m, k, exp, now)
    case _ => m
  }

  /** The effect of a call, apart from collection. */
  function Perform(c: Contents, e: Event): Contents {
    Contents(PerformRequests(c.requests, e.call), PerformTokens(c.tokens, e.call, e.now),
      PerformClaims(c.claims, e.call, e.now), c.lastCollection)
  }

  predicate Collects(call: Call) {
    call.CreateRequest? || call.CreateToken? || call.ClaimOnce?
  }

  function Apply(c: Contents, e: Event): Contents {
    Perform(if Collects(e.call) then Collect(c, e.now) else c, e)
  }

  function Run(c: Contents, es: seq<Event>): Contents
    decreases es
  {
    if es == [] then c else Run(Apply(c, es[0]), es[1..])
  }

  function RunUncollected(c: Contents, es: seq<Event>): Contents
    decreases es
  {
    if es == [] then c else RunUncollected(Perform(c, es[0]), es[1..])
  }

  predicate Ordered(es: seq<Event>) {
    forall i, j :: 0 <= i < j < |es| ==> es[i].now <= es[j].now
  }

  /** No hash and no request ID is created twice, nor is any of `used`. */
  predicate FreshKeys(es: seq<Event>, used: set<string>) {
    es == [] ||
    match es[0].call
    case CreateToken(t) => t.hash !in used && FreshKeys(es[1..], used + {t.hash})
    case CreateRequest(r) => r.id !in used && FreshKeys(es[1..], used + {r.id})
    case _ => FreshKeys(es[1..], used)
  }

  /** `c` lacks only records of `n` that have expired, and changes none. */
  ghost predicate TokensAgree(c: map<Hash, Token>, n: map<Hash, Token>, now: Time) {
    && (forall h :: h in c ==> h in n && c[h] == n[h])
    && (forall h :: h in n && h !in c ==> Collectable(now, n[h].expiresAt))
  }

  ghost predicate RequestsAgree(c: map<string, AuthorizationRequest>, n: map<string, AuthorizationRequest>, now: Time) {
    && (forall id :: id in c ==> id in n && c[id] == n[id])
    && (forall id :: id in n && id !in c ==> Collectable(now, n[id].expiresAt))
  }

  ghost predicate ClaimsAgree(c: map<string, Time>, n: map<string, Time>, now: Time) {
    && (forall k :: k in c ==> k in n && c[k] == n[k])
    && (forall k :: k in n && k !in c ==> Collectable(now, n[k]))
  }

  ghost predicate Agree(c: Contents, n: Contents, now: Time) {
    && TokensAgree(c.tokens, n.tokens, now)
    && RequestsAgree(c.requests, n.requests, now)
    && ClaimsAgree(c.claims, n.claims, now)
  }

  ghost predicate Keyed(n: Contents, used: set<string>) {
    n.tokens.Keys <= used && n.requests.Keys <= used
  }

  /** The keys in use after a call. */
  function Using(used: set<string>, call: Call): set<string> {
    match call
    case CreateToken(t) => used + {t.hash}
    case CreateRequest(r) => used + {r.id}
    case _ => used
  }

  lemma CollectAgrees(c: Contents, n: Contents, e: Event, since: Time)
    requires Agree(c, n, since) && since <= e.now
    ensures Agree(Collect(c, e.now), n, e.now)
  {
  }

  lemma PerformTokensAgree(c: map<Hash, Token>, n: map<Hash, Token>, call: Call, now: Time)
    requires TokensAgree(c, n, now)
    requires call.CreateToken? ==> call.token.hash !in n
    ensures TokensAgree(PerformTokens(c, call, now), PerformTokens(n, call, now), now)
  {
  }

  lemma PerformRequestsAgree(c: map<string, AuthorizationRequest>, n: map<string, AuthorizationRequest>, call: Call,
                             now: Time)
    requires RequestsAgree(c, n, now)
    requires call.CreateRequest? ==> call.req.id !in n
    ensures RequestsAgree(PerformRequests(c, call), PerformRequests(n, call), now)
  {
  }

  lemma PerformClaimsAgree(c: map<string, Time>, n: map<string, Time>, call: Call, now: Time)
    requires ClaimsAgree(c, n, now)
    ensures ClaimsAgree(PerformClaims(c, call, now), PerformClaims(n, call, now), now)
  {
  }

  lemma StepAgrees(c: Contents, n: Contents, e: Event, used: set<string>, since: Time)
    requires Agree(c, n, since) && Keyed(n, used) && since <= e.now
    requires FreshKeys([e], used)
    ensures Agree(Apply(c, e), Perform(n, e), e.now) && Keyed(Perform(n, e), Using(used, e.call))
  {
    CollectAgrees(c, n, e, since);
    var d := if Collects(e.call) then Collect(c, e.now) else c;
    PerformTokensAgree(d.tokens, n.tokens, e.call, e.now);
    PerformRequestsAgree(d.requests, n.requests, e.call, e.now);
    PerformClaimsAgree(d.claims, n.claims, e.call, e.now);
  }

  lemma {:induction false} RunsAgree(c: Contents, n: Contents, es: seq<Event>, used: set<string>, since: Time,
                                     now: Time)
    requires Agree(c, n, since) && Keyed(n, used)
    requires FreshKeys(es, used) && Ordered(es)
    requires es == [] ==> since <= now
    requires es != [] ==> since <= es[0].now && es[|es|-1].now <= now
    ensures Agree(Run(c, es), RunUncollected(n, es), now)
    decreases es
  {
    if es != [] {
      var e, rest := es[0], es[1..];
      StepAgrees(c, n, e, used, since);
      assert rest != [] ==> rest[0] == es[1] && rest[|rest|-1] == es[|es|-1];
      RunsAgree(Apply(c, e), Perform(n, e), rest, Using(used, e.call), e.now, now);
    }
  }

  lemma TokenReadsAgree(c: Contents, n: Contents, now: Time)
    requires TokensAgree(c.tokens, n.tokens, now)
    ensures forall issuer, h :: ActiveAccessToken(c, issuer, h, now) == ActiveAccessToken(n, issuer, h, now)
    ensures forall issuer, client, all, h ::
      Introspected(c, issuer, client, all, h, now) == Introspected(n, issuer, client, all, h, now)
  {
  }

  lemma RequestReadsAgree(c: Contents, n: Contents, now: Time)
    requires RequestsAgree(c.requests, n.requests, now) && ClaimsAgree(c.claims, n.claims, now)
    ensures forall issuer, id, b :: LoadPending(c, issuer, id, b, now) == LoadPending(n, issuer, id, b, now)
    ensures forall k :: ClaimFree(Collect(c, now).claims, k, now) == ClaimFree(n.claims, k, now)
  {
  }

  /** Every read, and ClaimOnce, gives the verdict it would give without
      collection. */
  lemma CollectionInvisible(es: seq<Event>, now: Time)
    requires Ordered(es) && FreshKeys(es, {})
    requires es != [] ==> es[|es|-1].now <= now
    ensures var c, n := Run(EMPTY, es), RunUncollected(EMPTY, es);
      && (forall issuer, h :: ActiveAccessToken(c, issuer, h, now) == ActiveAccessToken(n, issuer, h, now))
      && (forall issuer, client, all, h ::
        Introspected(c, issuer, client, all, h, now) == Introspected(n, issuer, client, all, h, now))
      && (forall issuer, h :: UserInfoToken(c, issuer, h, now) == UserInfoToken(n, issuer, h, now))
      && (forall issuer, id, b :: LoadPending(c, issuer, id, b, now) == LoadPending(n, issuer, id, b, now))
      && (forall k :: ClaimFree(Collect(c, now).claims, k, now) == ClaimFree(n.claims, k, now))
  {
    RunsAgree(EMPTY, EMPTY, es, {}, if es == [] then now else es[0].now, now);
    TokenReadsAgree(Run(EMPTY, es), RunUncollected(EMPTY, es), now);
    RequestReadsAgree(Run(EMPTY, es), RunUncollected(EMPTY, es), now);
  }

  /** Every token is stored before it can be collected. */
  predicate CreatedLive(es: seq<Event>) {
    forall i :: 0 <= i < |es| ==> es[i].call.CreateToken? ==> !Collectable(es[i].now, es[i].call.token.expiresAt)
  }

  /** The store still has a token exactly if no collection ran after its expiry. */
  ghost predicate MissingExactly(c: Contents, n: Contents) {
    forall h :: h in n.tokens ==>
      (h in c.tokens <==> (c.lastCollection == None || !Collectable(c.lastCollection.value, n.tokens[h].expiresAt)))
  }

  lemma CollectMissesExactly(c: Contents, n: Contents, now: Time)
    requires TokensAgree(c.tokens, n.tokens, now) && MissingExactly(c, n)
    requires c.lastCollection.Some? ==> c.lastCollection.value <= now
    ensures MissingExactly(Collect(c, now), n)
  {
  }

  lemma PerformMissesExactly(c: Contents, n: Contents, e: Event)
    requires TokensAgree(c.tokens, n.tokens, e.now) && MissingExactly(c, n)
    requires c.lastCollection.Some? ==> c.lastCollection.value <= e.now
    requires e.call.CreateToken? ==> !Collectable(e.now, e.call.token.expiresAt) && e.call.token.hash !in n.tokens
    ensures MissingExactly(Perform(c, e), Perform(n, e))
  {
  }

  lemma StepMissesExactly(c: Contents, n: Contents, e: Event, used: set<string>, since: Time)
    requires Agree(c, n, since) && MissingExactly(c, n) && Keyed(n, used) && since <= e.now
    requires c.lastCollection.Some? ==> c.lastCollection.value <= since
    requires FreshKeys([e], used)
    requires e.call.CreateToken? ==> !Collectable(e.now, e.call.token.expiresAt)
    ensures MissingExactly(Apply(c, e), Perform(n, e))
    ensures Apply(c, e).lastCollection.Some? ==> Apply(c, e).lastCollection.value <= e.now
  {
    CollectAgrees(c, n, e, since);
    CollectMissesExactly(c, n, e.now);
    PerformMissesExactly(if Collects(e.call) then Collect(c, e.now) else c, n, e);
  }

  lemma {:induction false} RunMissesExactly(c: Contents, n: Contents, es: seq<Event>, used: set<string>, since: Time)
    requires Agree(c, n, since) && MissingExactly(c, n) && Keyed(n, used)
    requires c.lastCollection.Some? ==> c.lastCollection.value <= since
    requires FreshKeys(es, used) && Ordered(es) && CreatedLive(es)
    requires es != [] ==> since <= es[0].now
    ensures MissingExactly(Run(c, es), RunUncollected(n, es))
    decreases es
  {
    if es != [] {
      var e, rest := es[0], es[1..];
      StepMissesExactly(c, n, e, used, since);
      StepAgrees(c, n, e, used, since);
      assert rest != [] ==> rest[0] == es[1];
      RunMissesExactly(Apply(c, e), Perform(n, e), rest, Using(used, e.call), e.now);
    }
  }

  /** Reuse detection is the one thing collection can hide: a token that was
      consumed is still found consumed exactly as long as no collection has
      run after its expiry. */
  lemma ReplayStillDetected(es: seq<Event>, h: Hash)
    requires Ordered(es) && FreshKeys(es, {}) && CreatedLive(es)
    requires h in RunUncollected(EMPTY, es).tokens && RunUncollected(EMPTY, es).tokens[h].consumedAt != None
    ensures var c, t := Run(EMPTY, es), RunUncollected(EMPTY, es).tokens[h];
      (h in c.tokens && c.tokens[h] == t)
      <==> (c.lastCollection == None || c.lastCollection.value <= t.expiresAt)
  {
    var since := if es == [] then 0 else es[0].now;
    RunMissesExactly(EMPTY, EMPTY, es, {}, since);
    RunsAgree(EMPTY, EMPTY, es, {}, since, if es == [] then since else es[|es|-1].now);
  }

  /** A concrete replay that goes unnoticed: the code expired, and storing an
      unrelated token a minute after the first one collected it. */
  lemma ReplayForgotten(code: Token, other: Token)
    requires code.hash != other.hash && code.expiresAt == 10 * SECOND
    ensures var es :=
        [Event(0, CreateToken(code)), Event(SECOND, ConsumeToken(code.hash)), Event(MINUTE, CreateToken(other))];
      && code.hash in RunUncollected(EMPTY, es).tokens && RunUncollected(EMPTY, es).tokens[code.hash].consumedAt.Some?
      && code.hash !in Run(EMPTY, es).tokens
  {
    var es := [Event(0, CreateToken(code)), Event(SECOND, ConsumeToken(code.hash)), Event(MINUTE, CreateToken(other))];
    var c1 := Apply(EMPTY, es[0]);
    var c2 := Apply(c1, es[1]);
    var c3 := Apply(c2, es[2]);
    assert es[1..] == [es[1], es[2]] && es[1..][1..] == [es[2]] && [es[2]][1..] == [];
    assert Run(EMPTY, es) == Run(c1, es[1..]) == Run(c2, [es[2]]) == Run(c3, []);
    var n1 := Perform(EMPTY, es[0]);
    var n2 := Perform(n1, es[1]);
    assert RunUncollected(EMPTY, es) == RunUncollected(n1, es[1..]) == RunUncollected(n2, [es[2]])
        == RunUncollected(Perform(n2, es[2]), []);
  }

  lemma {:induction false} ClaimHeld(c: Contents, es: seq<Event>, key: string, exp: Time, now: Time)
    requires key in c.claims && c.claims[key] == exp
    requires Ordered(es) && (es != [] ==> es[|es|-1].now <= now)
    requires now < exp
    ensures key in Run(c, es).claims && Run(c, es).claims[key] == exp
    decreases es
  {
    if es != [] {
      assert es[0].now <= now;
      ClaimHeld(Apply(c, es[0]), es[1..], key, exp, now);
    }
  }

  lemma {:induction false} RunSplit(c: Contents, xs: seq<Event>, ys: seq<Event>)
    ensures Run(c, xs + ys) == Run(Run(c, xs), ys)
    decreases xs
  {
    if xs == [] {
      assert xs + ys == ys;
    } else {
      assert (xs + ys)[1..] == xs[1..] + ys;
      RunSplit(Apply(c, xs[0]), xs[1..], ys);
    }
  }

  /** The verdict of the i-th call of a run, a ClaimOnce. */
  predicate ClaimSucceeds(es: seq<Event>, i: nat)
    requires i < |es|
  {
    && es[i].call.ClaimOnce?
    && ClaimFree(Collect(Run(EMPTY, es[..i]), es[i].now).claims, es[i].call.key, es[i].now)
  }

  /** Two successful claims of one key are never closer than the expiry of the
      first. */
  lemma ClaimsSpaced(es: seq<Event>, i: nat, j: nat)
    requires Ordered(es) && i < j < |es|
    requires ClaimSucceeds(es, i) && ClaimSucceeds(es, j) && es[i].call.key == es[j].call.key
    ensures es[j].now >= es[i].call.expiresAt
  {
    var key, exp, now := es[i].call.key, es[i].call.expiresAt, es[j].now;
    if now < exp {
      var c := Run(EMPTY, es[..i]);
      var d := Apply(c, es[i]);
      assert es[..j] == es[..i] + es[i..j];
      RunSplit(EMPTY, es[..i], es[i..j]);
      assert es[i..j][0] == es[i] && es[i..j][1..] == es[i+1..j];
      ClaimHeld(d, es[i+1..j], key, exp, now);
    }
  }
}
