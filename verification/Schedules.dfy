/** The sequential exchange is one schedule of the concurrent protocol: whatever
    the methods of module `Tokens` do to a store, some run of module `Interleaving`
    does, with the same failures, collections and clock. So the guarantees about
    runs are guarantees about that code. */
module Schedules {
  import opened Basics
  import opened Records
  import opened Memory
  import opened Issuance
  import opened Interleaving
  import opened Guarantees
  import opened Failures
  import A = AtomicGrants
  import E = Exchange

  /** Some run leads from one state to the other. */
  ghost predicate Reaches(cfg: Config, s: State, s': State) {
    exists acts :: ValidRun(cfg, s, acts) && Exec(cfg, s, acts) == s'
  }

  lemma ReachesSelf(cfg: Config, s: State)
    ensures Reaches(cfg, s, s)
  {
    assert ValidRun(cfg, s, []) && Exec(cfg, s, []) == s;
  }

  lemma ReachesStep(cfg: Config, s: State, act: Action)
    requires Enabled(cfg, s, act)
    ensures Reaches(cfg, s, Next(cfg, s, act))
  {
    var s' := Next(cfg, s, act);
    assert [act][0] == act && [act][1..] == [];
    assert ValidRun(cfg, s', []) && Exec(cfg, s', []) == s';
    assert ValidRun(cfg, s, [act]) && Exec(cfg, s, [act]) == s';
  }

  lemma {:induction false} RunThen(cfg: Config, s: State, xs: seq<Action>, ys: seq<Action>)
    requires ValidRun(cfg, s, xs) && ValidRun(cfg, Exec(cfg, s, xs), ys)
    ensures ValidRun(cfg, s, xs + ys) && Exec(cfg, s, xs + ys) == Exec(cfg, Exec(cfg, s, xs), ys)
    decreases xs
  {
    if xs == [] {
      assert xs + ys == ys;
    } else {
      assert (xs + ys)[0] == xs[0] && (xs + ys)[1..] == xs[1..] + ys;
      RunThen(cfg, Next(cfg, s, xs[0]), xs[1..], ys);
    }
  }

  lemma ReachesTrans(cfg: Config, s: State, t: State, u: State)
    requires Reaches(cfg, s, t) && Reaches(cfg, t, u)
    ensures Reaches(cfg, s, u)
  {
    var xs :| ValidRun(cfg, s, xs) && Exec(cfg, s, xs) == t;
    var ys :| ValidRun(cfg, t, ys) && Exec(cfg, t, ys) == u;
    RunThen(cfg, s, xs, ys);
  }

  /** The store and the clock of the machine are those of the sequential world. */
  predicate Sync(s: State, w: E.World) { s.tokens == w.tokens && s.now == w.now }

  /** A state like `s` with the store and the clock of `w`. */
  function With(s: State, w: E.World): State { s.(tokens := w.tokens, now := w.now) }

  lemma TickReached(cfg: Config, s: State, w: E.World)
    requires Sync(s, w)
    ensures Reaches(cfg, s, With(s, E.Tick(w))) && E.Tick(w).tokens == w.tokens && w.now <= E.Tick(w).now
  {
    ReachesStep(cfg, s, Advance(E.Tick(w).now));
  }

  lemma CollectReached(cfg: Config, s: State, w: E.World)
    requires Sync(s, w)
    ensures Reaches(cfg, s, With(s, E.Collected(w)))
  {
    var expired := set h | h in s.tokens && Collectable(s.now, s.tokens[h].expiresAt);
    var hashes := if E.Collected(w) == w then {} else expired;
    assert s.tokens - hashes == E.Collected(w).tokens;
    ReachesStep(cfg, s, Expire(hashes));
    assert Next(cfg, s, Expire(hashes)) == With(s, E.Collected(w));
  }

  // --- The phases of an exchange --------------------------------------------------------

  /** Where storing the records takes the process. */
  function AfterStoring(s: State, pid: nat, o: E.Outcome<()>, stored: nat): State
    requires pid in s.procs
  {
    With(if o.result.Ok? then Goto(s, pid, Storing(stored), s.procs[pid].verdict)
      else Goto(s, pid, Discarding(0), Failed),
      o.world)
  }

  lemma StoreOneReached(cfg: Config, s: State, w: E.World, pid: nat)
    requires Sync(s, w) && pid in s.procs && s.procs[pid].pc.Storing? && s.procs[pid].pc.stored < |s.procs[pid].records|
    ensures var k := s.procs[pid].pc.stored;
      Reaches(cfg, s, AfterStoring(s, pid, E.CreateToken(w, s.procs[pid].records[k]), k + 1))
  {
    var k := s.procs[pid].pc.stored;
    var o := E.CreateToken(w, s.procs[pid].records[k]);
    var w1 := E.Tick(w);
    var s1 := With(s, w1);
    TickReached(cfg, s, w);
    if E.Fails(w) {
      ReachesStep(cfg, s1, Store(pid, false));
      assert Next(cfg, s1, Store(pid, false)) == AfterStoring(s, pid, o, k + 1);
      ReachesTrans(cfg, s, s1, AfterStoring(s, pid, o, k + 1));
    } else {
      var s2 := With(s1, E.Collected(w1));
      CollectReached(cfg, s1, w1);
      ReachesTrans(cfg, s, s1, s2);
      ReachesStep(cfg, s2, Store(pid, true));
      assert Next(cfg, s2, Store(pid, true)) == AfterStoring(s, pid, o, k + 1);
      ReachesTrans(cfg, s, s2, AfterStoring(s, pid, o, k + 1));
    }
  }

  /** Storing one record and then the rest is storing them all. */
  lemma StoringSplits(w: E.World, records: seq<Token>, k: nat)
    requires k < |records|
    ensures var o := E.CreateToken(w, records[k]);
      E.StoreTokens(w, records[k..]) == if o.result.Ok? then E.StoreTokens(o.world, records[k+1..]) else o
  {
    assert records[k..][0] == records[k] && records[k..][1..] == records[k+1..];
  }

  lemma StoringComposes(s: State, pid: nat, w: E.World, k: nat, all: E.Outcome<()>, n: nat)
    requires pid in s.procs
    ensures var s1 := With(Goto(s, pid, Storing(k), s.procs[pid].verdict), w);
      AfterStoring(s1, pid, all, n) == AfterStoring(s, pid, all, n)
  {
    var s1 := With(Goto(s, pid, Storing(k), s.procs[pid].verdict), w);
    forall pc, v ensures Goto(s1, pid, pc, v).procs == Goto(s, pid, pc, v).procs {
      assert s1.procs[pid].(pc := pc, verdict := v) == s.procs[pid].(pc := pc, verdict := v);
    }
  }

  lemma {:induction false} StoreAllReached(cfg: Config, s: State, w: E.World, pid: nat, k: nat)
    requires Sync(s, w) && At(s, pid, Storing(k)) && k <= |s.procs[pid].records|
    ensures var records := s.procs[pid].records;
      Reaches(cfg, s, AfterStoring(s, pid, E.StoreTokens(w, records[k..]), |records|))
    decreases |s.procs[pid].records| - k
  {
    var records := s.procs[pid].records;
    var goal := AfterStoring(s, pid, E.StoreTokens(w, records[k..]), |records|);
    if k == |records| {
      assert goal == s;
      ReachesSelf(cfg, s);
    } else {
      var o := E.CreateToken(w, records[k]);
      var s1 := AfterStoring(s, pid, o, k + 1);
      StoreOneReached(cfg, s, w, pid);
      StoringSplits(w, records, k);
      if o.result.Ok? {
        StoringComposes(s, pid, o.world, k + 1, E.StoreTokens(w, records[k..]), |records|);
        StoreAllReached(cfg, s1, o.world, pid, k + 1);
        ReachesTrans(cfg, s, s1, goal);
      }
    }
  }

  lemma DiscardOneReached(cfg: Config, s: State, w: E.World, pid: nat)
    requires Sync(s, w) && pid in s.procs && s.procs[pid].pc.Discarding?
      && s.procs[pid].pc.discarded < |s.procs[pid].records|
    ensures var p := s.procs[pid];
      var k := p.pc.discarded;
      Reaches(cfg, s, With(Goto(s, pid, Discarding(k + 1), p.verdict), E.RevokeToken(w, p.records[k].hash)))
  {
    var p := s.procs[pid];
    var s1 := With(s, E.Tick(w));
    TickReached(cfg, s, w);
    var act := Discard(pid, !E.Fails(w));
    ReachesStep(cfg, s1, act);
    var k := p.pc.discarded;
    var s2 := With(Goto(s, pid, Discarding(k + 1), p.verdict), E.RevokeToken(w, p.records[k].hash));
    assert Next(cfg, s1, act) == s2;
    ReachesTrans(cfg, s, s1, s2);
  }

  lemma {:induction false} DiscardAllReached(cfg: Config, s: State, w: E.World, pid: nat)
    requires Sync(s, w) && pid in s.procs && s.procs[pid].pc.Discarding?
      && s.procs[pid].pc.discarded <= |s.procs[pid].records|
    ensures var p := s.procs[pid];
      Reaches(cfg, s, With(Goto(s, pid, Finished, p.verdict), E.DiscardTokens(w, p.records[p.pc.discarded..])))
    decreases |s.procs[pid].records| - s.procs[pid].pc.discarded
  {
    var p := s.procs[pid];
    var k := p.pc.discarded;
    var goal := With(Goto(s, pid, Finished, p.verdict), E.DiscardTokens(w, p.records[k..]));
    if k == |p.records| {
      ReachesStep(cfg, s, Finish(pid));
      assert Next(cfg, s, Finish(pid)) == goal;
    } else {
      assert p.records[k..][0] == p.records[k] && p.records[k..][1..] == p.records[k+1..];
      var w2 := E.RevokeToken(w, p.records[k].hash);
      var s2 := With(Goto(s, pid, Discarding(k + 1), p.verdict), w2);
      DiscardOneReached(cfg, s, w, pid);
      DiscardAllReached(cfg, s2, w2, pid);
      assert With(Goto(s2, pid, Finished, p.verdict), E.DiscardTokens(w2, p.records[k+1..])) == goal;
      ReachesTrans(cfg, s, s2, goal);
    }
  }

  /** Revoking the grant of a reused token, and finishing. */
  lemma RevokeReached(cfg: Config, s: State, w: E.World, pid: nat) returns (s': State)
    requires Sync(s, w) && ExchangingAt(s, pid, Revoking)
    ensures Reaches(cfg, s, s') && Sync(s', E.RevokeReusedGrant(w, s.procs[pid].token).world)
    ensures At(s', pid, Discarding(0)) && s'.procs[pid].verdict != Delivered
      && s'.procs[pid].records == s.procs[pid].records
  {
    var s1 := With(s, E.Tick(w));
    TickReached(cfg, s, w);
    var act := RevokeReused(pid, !E.Fails(w));
    ReachesStep(cfg, s1, act);
    s' := Next(cfg, s1, act);
    ReachesTrans(cfg, s, s1, s');
  }

  /** Where consuming the token takes the process; the stored record is the one
      it loaded. */
  lemma ConsumeReached(cfg: Config, s: State, w: E.World, pid: nat) returns (s': State)
    requires Sync(s, w) && pid in s.procs && ExchangingAt(s, pid, Storing(|s.procs[pid].records|))
    requires var h := s.procs[pid].token.hash; h in s.tokens ==> s.tokens[h].grantID == s.procs[pid].token.grantID
    ensures var o := E.Consume(w, s.procs[pid].token.hash);
      && Reaches(cfg, s, s') && Sync(s', o.world) && pid in s'.procs && s'.procs[pid].records == s.procs[pid].records
      && (if o.result.Ok? then At(s', pid, Finished) && s'.procs[pid].verdict == Delivered
            && A.Hashes(s.procs[pid].records) <= s'.disclosed
          else At(s', pid, Discarding(0)) && s'.procs[pid].verdict != Delivered)
  {
    var h := s.procs[pid].token.hash;
    var s1 := With(s, E.Tick(w));
    TickReached(cfg, s, w);
    var act := Consume(pid, !E.Fails(w));
    ReachesStep(cfg, s1, act);
    s' := Next(cfg, s1, act);
    ReachesTrans(cfg, s, s1, s');
    if !E.Fails(w) && h in w.tokens && w.tokens[h].consumedAt.Some? {
      var s2 := s';
      assert E.RevokeReusedGrant(E.Tick(w), w.tokens[h]) == E.RevokeReusedGrant(E.Tick(w), s2.procs[pid].token);
      s' := RevokeReached(cfg, s2, E.Tick(w), pid);
      ReachesTrans(cfg, s, s2, s');
    }
  }

  /** What the process ends with: exactly a successful exchange discloses tokens. */
  ghost predicate Ended(s: State, pid: nat, ok: bool, records: seq<Token>) {
    && At(s, pid, Finished) && (ok <==> s.procs[pid].verdict == Delivered)
    && (ok ==> A.Hashes(records) <= s.disclosed)
  }

  lemma StoreAndConsumeReached(cfg: Config, s: State, w: E.World, pid: nat) returns (s': State)
    requires Sync(s, w) && ExchangingAt(s, pid, Storing(0))
    requires var p := s.procs[pid];
      && (p.token.hash in s.tokens ==> s.tokens[p.token.hash] == p.token)
      && (forall i :: 0 <= i < |p.records| ==> p.records[i].hash != p.token.hash)
    ensures var p := s.procs[pid];
      var o := E.StoreAndConsume(w, p.records, p.token.hash);
      Reaches(cfg, s, s') && Sync(s', o.world) && Ended(s', pid, o.result.Ok?, p.records)
  {
    var p := s.procs[pid];
    assert p.records[0..] == p.records;
    var stored := E.StoreTokens(w, p.records);
    StoreAllReached(cfg, s, w, pid, 0);
    var s1 := AfterStoring(s, pid, stored, |p.records|);
    if stored.result.Err? {
      s' := With(Goto(s1, pid, Finished, Failed), E.DiscardTokens(stored.world, p.records));
      DiscardAllReached(cfg, s1, stored.world, pid);
      ReachesTrans(cfg, s, s1, s');
    } else {
      StoreKeeps(w, p.records, HashesOf(p.records));
      var s2 := ConsumeReached(cfg, s1, stored.world, pid);
      ReachesTrans(cfg, s, s1, s2);
      s' := s2;
      var consumed := E.Consume(stored.world, p.token.hash);
      if consumed.result.Err? {
        s' := With(Goto(s2, pid, Finished, s2.procs[pid].verdict), E.DiscardTokens(consumed.world, p.records));
        DiscardAllReached(cfg, s2, consumed.world, pid);
        ReachesTrans(cfg, s, s2, s');
      }
    }
  }

  /** A process that gives up before storing anything. */
  lemma RejectReached(cfg: Config, s: State, pid: nat)
    requires Enabled(cfg, s, Reject(pid))
    ensures Reaches(cfg, s, Goto(s, pid, Finished, Rejected))
  {
    ReachesStep(cfg, s, Reject(pid));
  }

  ghost predicate Response(s: State, r: Result<E.TokenResponse, Error>) {
    && (r.Ok? ==> r.value.accessToken in s.disclosed)
    && (r.Ok? && r.value.refreshToken.Some? ==> r.value.refreshToken.value in s.disclosed)
  }

  lemma ResponseHashes(a: E.Attempt, t: Token, plan: Plan, now: Time)
    ensures var r := E.Response(a, t, plan);
      var hashes := A.Hashes(E.Minted(t, plan, a.access, a.refresh, now));
      r.accessToken in hashes && (r.refreshToken.Some? ==> r.refreshToken.value in hashes)
  {
    var records := E.Minted(t, plan, a.access, a.refresh, now);
    assert records[0].hash == a.access;
    assert plan.refresh ==> records[1].hash == a.refresh;
  }

  lemma MintReached(cfg: Config, s: State, pid: nat, plan: Plan) returns (s': State)
    requires ExchangingAt(s, pid, Validated) && Plans(cfg, s.procs[pid]) == Ok(plan)
    requires var a := s.procs[pid].job.a; cfg.Registered(a.client, a.client.id) && Fresh(s, a.access, a.refresh)
    ensures var p := s.procs[pid];
      var records := E.Minted(p.token, plan, p.job.a.access, p.job.a.refresh, s.now);
      && Reaches(cfg, s, s') && ExchangingAt(s', pid, Storing(0)) && s'.tokens == s.tokens && s'.now == s.now
      && s'.procs[pid].token == p.token && s'.procs[pid].records == records && s'.disclosed == s.disclosed
  {
    ReachesStep(cfg, s, Mint(pid));
    s' := Next(cfg, s, Mint(pid));
  }

  /** From an accepted plan on. */
  lemma MintAndStoreReached(cfg: Config, s: State, w: E.World, pid: nat, plan: Plan) returns (s': State)
    requires Sync(s, w) && ExchangingAt(s, pid, Validated) && Plans(cfg, s.procs[pid]) == Ok(plan)
    requires var a := s.procs[pid].job.a; cfg.Registered(a.client, a.client.id) && Fresh(s, a.access, a.refresh)
    requires var t := s.procs[pid].token;
      t.hash == s.procs[pid].job.a.value && t.hash in s.used && (t.hash in s.tokens ==> s.tokens[t.hash] == t)
    ensures var t, a := s.procs[pid].token, s.procs[pid].job.a;
      var o := E.StoreAndConsume(w, E.Minted(t, plan, a.access, a.refresh, w.now), a.value);
      && Reaches(cfg, s, s') && Sync(s', o.world) && At(s', pid, Finished)
      && (o.result.Ok? <==> s'.procs[pid].verdict == Delivered)
      && (o.result.Ok? ==> Response(s', Ok(E.Response(a, t, plan))))
  {
    var s1 := MintReached(cfg, s, pid, plan);
    s' := StoreAndConsumeReached(cfg, s1, w, pid);
    ReachesTrans(cfg, s, s1, s');
    ResponseHashes(s.procs[pid].job.a, s.procs[pid].token, plan, w.now);
  }

  /** From the unused token on. */
  lemma IssueReached(cfg: Config, s: State, w: E.World, pid: nat) returns (s': State)
    requires Sync(s, w) && ExchangingAt(s, pid, Validated)
    requires var a := s.procs[pid].job.a; cfg.Registered(a.client, a.client.id) && Fresh(s, a.access, a.refresh)
    requires var t := s.procs[pid].token;
      t.hash == s.procs[pid].job.a.value && t.hash in s.used && (t.hash in s.tokens ==> s.tokens[t.hash] == t)
    ensures var o := E.Issue(cfg, w, s.procs[pid].token, s.procs[pid].job.a);
      && Reaches(cfg, s, s') && Sync(s', o.world) && At(s', pid, Finished)
      && (o.result.Ok? <==> s'.procs[pid].verdict == Delivered) && Response(s', o.result)
  {
    var p := s.procs[pid];
    var a := p.job.a;
    var planned := E.PlanAttempt(cfg, p.token, a);
    var s1 := With(s, E.Tick(w));
    if planned.Err? {
      RejectReached(cfg, s, pid);
      s' := Goto(s, pid, Finished, Rejected);
    } else if E.Fails(w) || a.access == "" {
      TickReached(cfg, s, w);
      RejectReached(cfg, s1, pid);
      s' := Goto(s1, pid, Finished, Rejected);
      ReachesTrans(cfg, s, s1, s');
    } else {
      TickReached(cfg, s, w);
      s' := MintAndStoreReached(cfg, s1, E.Tick(w), pid, planned.value);
      ReachesTrans(cfg, s, s1, s');
    }
  }

  /** From the loaded token on. */
  lemma LoadedReached(cfg: Config, s: State, w: E.World, pid: nat) returns (s': State)
    requires Sync(s, w) && ExchangingAt(s, pid, Loaded) && s.procs[pid].records == []
    requires var a := s.procs[pid].job.a; cfg.Registered(a.client, a.client.id) && Fresh(s, a.access, a.refresh)
    requires var t := s.procs[pid].token;
      t.hash == s.procs[pid].job.a.value && t.hash in s.used && t.hash in s.tokens && s.tokens[t.hash] == t
    requires E.PreCheck(cfg, s.procs[pid].token, s.procs[pid].job.a) == None
    ensures var t, a := s.procs[pid].token, s.procs[pid].job.a;
      var used := E.CheckUnused(w, t);
      var o := if used.result.Err? then E.Outcome(used.world, Err(used.result.error))
        else E.Issue(cfg, used.world, t, a);
      && Reaches(cfg, s, s') && Sync(s', o.world) && At(s', pid, Finished)
      && (o.result.Ok? <==> s'.procs[pid].verdict == Delivered) && Response(s', o.result)
  {
    var p := s.procs[pid];
    if p.token.consumedAt.Some? {
      ReachesStep(cfg, s, DetectReuse(pid));
      var s1 := Goto(s, pid, Revoking, Undecided);
      var s2 := RevokeReached(cfg, s1, w, pid);
      ReachesTrans(cfg, s, s1, s2);
      var w2 := E.RevokeReusedGrant(w, p.token).world;
      assert s2.procs[pid].records[0..] == [];
      DiscardAllReached(cfg, s2, w2, pid);
      s' := With(Goto(s2, pid, Finished, s2.procs[pid].verdict), w2);
      ReachesTrans(cfg, s, s2, s');
    } else if !p.token.Unexpired(w.now) {
      RejectReached(cfg, s, pid);
      s' := Goto(s, pid, Finished, Rejected);
    } else {
      ReachesStep(cfg, s, Validate(pid));
      var s1 := Goto(s, pid, Validated, Undecided);
      s' := IssueReached(cfg, s1, w, pid);
      ReachesTrans(cfg, s, s1, s');
    }
  }

  /** Every sequential exchange by a registered client that presents a disclosed
      value is a run of the protocol: it ends in the same store at the same time,
      and succeeds exactly if the process discloses its tokens. */
  lemma ExchangeIsASchedule(cfg: Config, s: State, w: E.World, a: E.Attempt, pid: nat) returns (s': State)
    requires Inv(s) && Sync(s, w) && pid !in s.procs && a.kind != AccessToken
    requires a.value in s.tokens ==> a.value in s.disclosed
    requires cfg.Registered(a.client, a.client.id) && Fresh(s, a.access, a.refresh)
    ensures var o := E.Redeem(cfg, w, a);
      && Reaches(cfg, s, s') && Sync(s', o.world) && Response(s', o.result)
      && (o.result.Ok? <==> pid in s'.procs && s'.procs[pid].verdict == Delivered)
  {
    var s1 := With(s, E.Tick(w));
    if !a.client.AllowsGrant(E.GrantOf(a.kind)) || a.value == "" {
      ReachesSelf(cfg, s);
      return s;
    }
    TickReached(cfg, s, w);
    var loaded := E.SingleUseToken(w, a);
    if loaded.result.Err? {
      return s1;
    }
    var t := loaded.result.value;
    assert TokenOK(s, a.value, t);
    ReachesStep(cfg, s1, Load(pid, a));
    var s2 := s1.(procs := s1.procs[pid := Proc(Exchanging(a), t, [], Loaded, Undecided)]);
    assert Next(cfg, s1, Load(pid, a)) == s2;
    ReachesTrans(cfg, s, s1, s2);
    if E.PreCheck(cfg, t, a).Some? {
      RejectReached(cfg, s2, pid);
      s' := Goto(s2, pid, Finished, Rejected);
    } else {
      s' := LoadedReached(cfg, s2, loaded.world, pid);
    }
    ReachesTrans(cfg, s, s2, s');
  }

  /** So the guarantees hold of whatever such exchanges leave behind. */
  lemma ExchangeStaysReachable(cfg: Config, s: State, w: E.World, a: E.Attempt, pid: nat) returns (s': State)
    requires cfg.Valid() && Reachable(cfg, s) && Sync(s, w) && pid !in s.procs && a.kind != AccessToken
    requires a.value in s.tokens ==> a.value in s.disclosed
    requires cfg.Registered(a.client, a.client.id) && Fresh(s, a.access, a.refresh)
    ensures Reachable(cfg, s') && s'.tokens == E.Redeem(cfg, w, a).world.tokens
  {
    ReachableInv(cfg, s);
    s' := ExchangeIsASchedule(cfg, s, w, a, pid);
    ReachesTrans(cfg, INITIAL, s, s');
  }

  /** Serving a revocation request is a run as well. */
  lemma RevocationIsASchedule(cfg: Config, s: State, w: E.World, issuer: string, clientID: string, h: Hash, pid: nat)
    returns (s': State)
    requires Sync(s, w) && pid !in s.procs && (h in s.tokens ==> h in s.disclosed && s.tokens[h].hash == h)
    ensures Reaches(cfg, s, s') && Sync(s', E.ServeRevocation(w, issuer, clientID, h).world)
    ensures h in w.tokens && w.tokens[h].kind == RefreshToken && E.ServeRevocation(w, issuer, clientID, h).result.Ok?
        && w.tokens[h].issuer == issuer
      ==> w.tokens[h].grantID in s'.revoked
  {
    var s1 := With(s, E.Tick(w));
    if h == "" {
      ReachesSelf(cfg, s);
      return s;
    }
    TickReached(cfg, s, w);
    if E.Fails(w) || h !in w.tokens || w.tokens[h].issuer != issuer || w.tokens[h].kind == AuthorizationCode
       || w.tokens[h].clientID != clientID {
      return s1;
    }
    var t := w.tokens[h];
    var load := LoadRevocation(pid, h, issuer, clientID);
    ReachesStep(cfg, s1, load);
    var s2 := s1.(procs := s1.procs[pid := Proc(RevokingToken(issuer, clientID), t, [], Loaded, Undecided)]);
    assert Next(cfg, s1, load) == s2;
    ReachesTrans(cfg, s, s1, s2);
    s' := RevokedReached(cfg, s2, E.Tick(w), pid);
    ReachesTrans(cfg, s, s2, s');
  }

  lemma RevokedReached(cfg: Config, s: State, w: E.World, pid: nat) returns (s': State)
    requires Sync(s, w) && At(s, pid, Loaded) && s.procs[pid].job.RevokingToken?
    ensures var t := s.procs[pid].token;
      && Reaches(cfg, s, s') && s'.now == E.Tick(w).now
      && s'.tokens == (if E.Fails(w) then w.tokens
                       else if t.kind == RefreshToken then WithoutGrant(w.tokens, t.grantID) else w.tokens - {t.hash})
      && (!E.Fails(w) && t.kind == RefreshToken ==> t.grantID in s'.revoked)
  {
    var s1 := With(s, E.Tick(w));
    TickReached(cfg, s, w);
    var act := Revoke(pid, !E.Fails(w));
    ReachesStep(cfg, s1, act);
    s' := Next(cfg, s1, act);
    ReachesTrans(cfg, s, s1, s');
  }
}
