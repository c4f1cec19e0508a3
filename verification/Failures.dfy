/** Failure atomicity of an exchange, and that a retry succeeds (token.go). */
module Failures {
  import opened Basics
  import opened Records
  import opened Issuance
  import opened Exchange

  /** From `w` to `v` nothing changed but the tokens in `extra`, apart from
      expired tokens that were collected. */
  ghost predicate Kept(w: World, v: World, extra: set<Hash>) {
    && w.now <= v.now
    && (forall k :: k in v.tokens && k !in extra ==> k in w.tokens && v.tokens[k] == w.tokens[k])
    && (forall k :: k in w.tokens && k !in extra && k !in v.tokens ==> Collectable(v.now, w.tokens[k].expiresAt))
  }

  lemma KeptTrans(u: World, v: World, w: World, extra: set<Hash>)
    requires Kept(u, v, extra) && Kept(v, w, extra)
    ensures Kept(u, w, extra)
  {
  }

  function HashesOf(records: seq<Token>): set<Hash> {
    set r | r in records :: r.hash
  }

  predicate AllSucceed(script: seq<Turn>) {
    forall i :: 0 <= i < |script| ==> !script[i].fails
  }

  /** Once an interaction has failed, all later ones succeed. */
  predicate AtMostOneFailure(script: seq<Turn>) {
    script == [] || (if script[0].fails then AllSucceed(script[1..]) else AtMostOneFailure(script[1..]))
  }

  lemma {:induction false} AllSucceedAtMostOne(script: seq<Turn>)
    requires AllSucceed(script)
    ensures AtMostOneFailure(script)
  {
    if script != [] {
      AllSucceedAtMostOne(script[1..]);
    }
  }

  lemma TickScript(w: World)
    ensures AllSucceed(w.script) ==> AllSucceed(Tick(w).script) && !Fails(w)
    ensures AtMostOneFailure(w.script) ==>
      if Fails(w) then AllSucceed(Tick(w).script) else AtMostOneFailure(Tick(w).script)
  {
  }

  lemma CreateKeeps(w: World, t: Token, extra: set<Hash>)
    requires t.hash in extra
    ensures Kept(w, CreateToken(w, t).world, extra)
    ensures CreateToken(w, t).world.script == Tick(w).script
    ensures CreateToken(w, t).result.Ok? ==>
      !Fails(w) && t.hash in CreateToken(w, t).world.tokens && CreateToken(w, t).world.tokens[t.hash] == t
    ensures t.hash !in w.tokens && !Fails(w) ==> CreateToken(w, t).result.Ok?
  {
  }

  lemma RevokeKeeps(w: World, h: Hash, extra: set<Hash>)
    requires h in extra
    ensures Kept(w, RevokeToken(w, h), extra)
    ensures RevokeToken(w, h).script == Tick(w).script
    ensures RevokeToken(w, h).tokens.Keys <= w.tokens.Keys && (!Fails(w) ==> h !in RevokeToken(w, h).tokens)
  {
  }

  lemma {:induction false} StoreKeeps(w: World, records: seq<Token>, extra: set<Hash>)
    requires forall i :: 0 <= i < |records| ==> records[i].hash in extra
    ensures Kept(w, StoreTokens(w, records).world, extra)
    decreases records
  {
    if records != [] {
      CreateKeeps(w, records[0], extra);
      var o := CreateToken(w, records[0]);
      if o.result.Ok? {
        StoreKeeps(o.world, records[1..], extra);
        KeptTrans(w, o.world, StoreTokens(w, records).world, extra);
      }
    }
  }

  /** If storing fails although all hashes are new, an interaction failed. */
  lemma {:induction false} StoreFailure(w: World, records: seq<Token>)
    requires AtMostOneFailure(w.script)
    requires forall i :: 0 <= i < |records| ==> records[i].hash !in w.tokens
    requires forall i, j :: 0 <= i < j < |records| ==> records[i].hash != records[j].hash
    ensures var o := StoreTokens(w, records);
      if o.result.Err? then AllSucceed(o.world.script) else AtMostOneFailure(o.world.script)
    decreases records
  {
    TickScript(w);
    if records != [] {
      var o := CreateToken(w, records[0]);
      CreateKeeps(w, records[0], {records[0].hash});
      if o.result.Ok? {
        forall i | 0 <= i < |records[1..]| ensures records[1..][i].hash !in o.world.tokens {
          assert records[1..][i] == records[i+1];
        }
        StoreFailure(o.world, records[1..]);
      }
    }
  }

  lemma {:induction false} DiscardKeeps(w: World, records: seq<Token>, extra: set<Hash>)
    requires forall i :: 0 <= i < |records| ==> records[i].hash in extra
    ensures Kept(w, DiscardTokens(w, records), extra)
    ensures DiscardTokens(w, records).tokens.Keys <= w.tokens.Keys
    ensures AllSucceed(w.script) ==>
      forall i :: 0 <= i < |records| ==> records[i].hash !in DiscardTokens(w, records).tokens
    decreases records
  {
    if records != [] {
      var v := RevokeToken(w, records[0].hash);
      RevokeKeeps(w, records[0].hash, extra);
      TickScript(w);
      DiscardKeeps(v, records[1..], extra);
      KeptTrans(w, v, DiscardTokens(w, records), extra);
      if AllSucceed(w.script) {
        forall i | 0 <= i < |records| ensures records[i].hash !in DiscardTokens(w, records).tokens {
          if i > 0 { assert records[i] == records[1..][i-1]; }
        }
      }
    }
  }

  /** The hashes an attempt will use are new. */
  ghost predicate FreshFor(w: World, a: Attempt) {
    a.access !in w.tokens && a.refresh !in w.tokens && a.access != a.refresh
  }

  lemma ConsumeKeeps(w: World, h: Hash, extra: set<Hash>)
    requires h in w.tokens ==> w.tokens[h].consumedAt == None
    ensures Consume(w, h).result.Err? ==> Kept(w, Consume(w, h).world, extra) && Consume(w, h).world.tokens == w.tokens
    ensures h in w.tokens && Consume(w, h).result.Err? && AtMostOneFailure(w.script) ==>
      AllSucceed(Consume(w, h).world.script)
  {
    TickScript(w);
  }

  lemma KeptNone(w: World, v: World, extra: set<Hash>)
    requires Kept(w, v, extra) && extra !! w.tokens.Keys && extra !! v.tokens.Keys
    ensures Kept(w, v, {})
  {
  }

  ghost predicate NewRecords(w: World, records: seq<Token>) {
    && (forall i :: 0 <= i < |records| ==> records[i].hash !in w.tokens)
    && (forall i, j :: 0 <= i < j < |records| ==> records[i].hash != records[j].hash)
  }

  lemma HashesExact(records: seq<Token>)
    ensures forall i :: 0 <= i < |records| ==> records[i].hash in HashesOf(records)
    ensures forall k :: k in HashesOf(records) ==> exists i :: 0 <= i < |records| && records[i].hash == k
  {
    forall i | 0 <= i < |records| ensures records[i].hash in HashesOf(records) {
      assert records[i] in records;
    }
  }

  /** Storing, consuming and discarding: on failure everything but the minted
      records is as before, and these are gone if at most one interaction failed
      and the credential did not expire meanwhile. */
  lemma StoreAndConsumeAtomic(w: World, records: seq<Token>, h: Hash)
    requires NewRecords(w, records) && h in w.tokens && w.tokens[h].consumedAt == None
    ensures var o := StoreAndConsume(w, records, h);
      o.result.Err? ==>
        && Kept(w, o.world, HashesOf(records))
        && (AtMostOneFailure(w.script) && !Collectable(o.world.now, w.tokens[h].expiresAt) ==> Kept(w, o.world, {}))
  {
    var extra := HashesOf(records);
    var stored := StoreTokens(w, records);
    var o := StoreAndConsume(w, records, h);
    HashesExact(records);
    assert h !in extra;
    StoreKeeps(w, records, extra);
    if AtMostOneFailure(w.script) {
      StoreFailure(w, records);
    }
    if stored.result.Err? {
      DiscardKeeps(stored.world, records, extra);
      KeptTrans(w, stored.world, o.world, extra);
      if AtMostOneFailure(w.script) {
        KeptNone(w, o.world, extra);
      }
    } else if o.result.Err? {
      var consumed := Consume(stored.world, h);
      ConsumeKeeps(stored.world, h, extra);
      DiscardKeeps(consumed.world, records, extra);
      KeptTrans(w, stored.world, consumed.world, extra);
      KeptTrans(w, consumed.world, o.world, extra);
      if AtMostOneFailure(w.script) && !Collectable(o.world.now, w.tokens[h].expiresAt) {
        KeptNone(w, o.world, extra);
      }
    }
  }

  lemma MintedNew(w: World, t: Token, plan: Plan, a: Attempt, now: Time)
    requires FreshFor(w, a)
    ensures NewRecords(w, Minted(t, plan, a.access, a.refresh, now))
    ensures HashesOf(Minted(t, plan, a.access, a.refresh, now)) <= {a.access, a.refresh}
  {
  }

  lemma KeptMore(w: World, v: World, extra: set<Hash>, more: set<Hash>)
    requires Kept(w, v, extra) && extra <= more
    ensures Kept(w, v, more)
  {
  }

  lemma TickKeeps(w: World, extra: set<Hash>)
    ensures Kept(w, Tick(w), extra)
  {
  }

  lemma IssueAtomic(cfg: Config, w: World, t: Token, a: Attempt)
    requires FreshFor(w, a) && a.value in w.tokens && w.tokens[a.value].consumedAt == None
    requires Issue(cfg, w, t, a).result.Err?
    ensures var v := Issue(cfg, w, t, a).world;
      && Kept(w, v, {a.access, a.refresh})
      && (AtMostOneFailure(w.script) && !Collectable(v.now, w.tokens[a.value].expiresAt) ==> Kept(w, v, {}))
  {
    var v := Issue(cfg, w, t, a).world;
    var planned := PlanAttempt(cfg, t, a);
    var m := Tick(w);
    TickScript(w);
    TickKeeps(w, {});
    if planned.Ok? && !Fails(w) && a.access != "" {
      var rs := Minted(t, planned.value, a.access, a.refresh, m.now);
      MintedNew(m, t, planned.value, a, m.now);
      StoreAndConsumeAtomic(m, rs, a.value);
      KeptMore(m, v, HashesOf(rs), {a.access, a.refresh});
      TickKeeps(w, {a.access, a.refresh});
      KeptTrans(w, m, v, {a.access, a.refresh});
      if AtMostOneFailure(w.script) && !Collectable(v.now, w.tokens[a.value].expiresAt) {
        KeptTrans(w, m, v, {});
      }
    }
  }

  /** An exchange of an unused token that fails, wherever it fails, leaves every
      token as it was, apart from expired ones: only values it minted itself may
      be left behind, and not even these if at most one interaction failed and
      the token did not expire meanwhile. */
  lemma FailureAtomicity(cfg: Config, w: World, a: Attempt)
    requires FreshFor(w, a) && a.value in w.tokens && w.tokens[a.value].consumedAt == None
    requires Redeem(cfg, w, a).result.Err?
    ensures var v := Redeem(cfg, w, a).world;
      && Kept(w, v, {a.access, a.refresh})
      && (AtMostOneFailure(w.script) && !Collectable(v.now, w.tokens[a.value].expiresAt) ==>
            Kept(w, v, {}) && a.value in v.tokens && v.tokens[a.value] == w.tokens[a.value])
  {
    var t := w.tokens[a.value];
    var u := Tick(w);
    var v := Redeem(cfg, w, a).world;
    TickScript(w);
    TickKeeps(w, {});
    TickKeeps(w, {a.access, a.refresh});
    if v != w && v != u {
      assert v == Issue(cfg, u, t, a).world;
      IssueAtomic(cfg, u, t, a);
      KeptTrans(w, u, v, {a.access, a.refresh});
      if AtMostOneFailure(w.script) && !Collectable(v.now, t.expiresAt) {
        KeptTrans(w, u, v, {});
      }
    }
  }

  /** Why new values must be new: an exchange that mints the value of a stored,
      unexpired token fails and takes that token with it, whoever it belongs to. */
  lemma ReusedValueDestroysToken(w: World, records: seq<Token>, h: Hash)
    requires AllSucceed(w.script) && records != [] && records[0].hash in w.tokens
    requires !Collectable(Tick(w).now, w.tokens[records[0].hash].expiresAt)
    ensures StoreAndConsume(w, records, h).result.Err?
    ensures records[0].hash !in StoreAndConsume(w, records, h).world.tokens
  {
    TickScript(w);
    var stored := StoreTokens(w, records);
    assert stored == CreateToken(w, records[0]);
    DiscardKeeps(stored.world, records, HashesOf(records));
  }
}
